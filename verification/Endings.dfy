/** Where a quiet run ends: which latest intents are confirmed in the end, and which callers are
    answered. The token machine decides both; the pipeline inherits them. */
module Endings {
  import opened Types
  import opened Keys
  import opened Policy
  import opened Coordinator
  import opened Snooze
  import opened Messages
  import opened Pipeline
  import opened Places
  import opened Refinement
  import opened PipelineTheorems
  import opened Intents
  import opened Convergence
  import opened Callers
  import Confirmations
  import TM = TokenMachine
  import TP = TokenProofs

  // ---- Quiet runs of the token machine ----

  predicate Calm(m: TM.TM, e: TM.Event) {
    TM.Enabled(m, e) &&
    match e
    case WakeUp(_, _) => true
    case Settle(_) => true
    case Arm(key, clock) =>
      OnInput(m.timers, SnoozeInput(key, m.tokens[key].job.status.wake), clock).outcome.Accepted?
    case Attempt(_, ok, _, _) => ok
    case _ => false
  }

  ghost predicate CalmRun(m: TM.TM, events: seq<TM.Event>, m': TM.TM)
    decreases |events|
  {
    if events == [] then m' == m
    else Calm(m, events[0]) && CalmRun(TM.Step(m, events[0]), events[1..], m')
  }

  lemma QuietIsCalm(s: Sys, m: TM.TM, places: map<Key, Place>, a: Action)
    requires Link(s, m, places) && Quiet(s, a)
    requires Meaning(s, a).Some? ==> TM.Enabled(m, Meaning(s, a).value)
    ensures Meaning(s, a).Some? ==> Calm(m, Meaning(s, a).value)
  {
    if a.TakeSnooze? {
      assert SnoozeMatches(m.tokens, s.snoozes[0]);
    }
  }

  lemma PrependCalm(m: TM.TM, e: Option<TM.Event>, rest: seq<TM.Event>, m': TM.TM) returns (events: seq<TM.Event>)
    requires e.Some? ==> Calm(m, e.value)
    requires CalmRun(After(m, e), rest, m')
    ensures CalmRun(m, events, m')
  {
    if e.Some? {
      events := [e.value] + rest;
      assert events[1..] == rest;
    } else {
      events := rest;
    }
  }

  /** A quiet run of the pipeline implements a calm run of the token machine. */
  lemma {:induction false} QuietImplements(s: Sys, m: TM.TM, places: map<Key, Place>, actions: seq<Action>, s': Sys)
    returns (m': TM.TM, places': map<Key, Place>, events: seq<TM.Event>)
    requires Implements(s, m, places) && QuietRun(s, actions, s')
    ensures Implements(s', m', places') && CalmRun(m, events, m')
    decreases |actions|
  {
    if actions == [] {
      m', places', events := m, places, [];
    } else {
      var a := actions[0];
      var places1 := QuietDecreases(s, m, places, a);
      QuietIsCalm(s, m, places, a);
      var rest;
      m', places', rest := QuietImplements(Pipeline.Step(s, a), After(m, Meaning(s, a)), places1, actions[1..], s');
      events := PrependCalm(m, Meaning(s, a), rest, m');
    }
  }

  // ---- Which intents survive ----

  /** The job of `k` is a failed user job and still the latest intent: settling it rolls `k` back. */
  predicate RollsBack(m: TM.TM, k: Key) {
    && k in m.tokens && m.tokens[k].phase == TM.Finished(false) && m.tokens[k].job.userInitiated
    && k in m.coord.speculative && m.coord.speculative[k].id == m.tokens[k].job.id
  }

  /** A wake of `k` is under way that its latest intent will not ignore. */
  predicate WillWake(m: TM.TM, k: Key) {
    k in m.wakes && !IgnoresWake(m.coord, k)
  }

  lemma RestKeepsLatest(m: TM.TM, m': TM.TM, key: Key, k: Key)
    requires key in m.tokens && TP.Resting(m, m', key, m.tokens[key].job)
    requires key in m.coord.speculative
    requires m.coord.speculative[key] == Entry(m.tokens[key].job.status, m.tokens[key].job.id)
    ensures Latest(m'.coord, k) == Latest(m.coord, k) && !RollsBack(m', key)
    ensures k != key ==> (RollsBack(m', k) <==> RollsBack(m, k))
  {}

  lemma RelaunchKeepsLatest(m: TM.TM, m': TM.TM, key: Key, ok: bool, e: Entry, k: Key)
    requires key in m.tokens && TP.Relaunching(m, m', key, m.tokens[key].job, ok, e)
    requires key in m.coord.speculative && (k == key ==> e == m.coord.speculative[key])
    ensures Latest(m'.coord, k) == Latest(m.coord, k) && !RollsBack(m', key)
    ensures k != key ==> (RollsBack(m', k) <==> RollsBack(m, k))
  {}

  lemma CurrentEntry(m: TM.TM, key: Key)
    requires TP.JobFacts(m, key) && TM.AllStamped(m)
    requires m.coord.speculative[key].id == m.tokens[key].job.id
    ensures m.coord.speculative[key] == Entry(m.tokens[key].job.status, m.tokens[key].job.id)
  {
    Confirmations.SameIdSameStatus(m, key);
  }

  /** Settling leaves the latest intent of a key alone unless it rolls that key back. */
  lemma SettleKeepsLatest(m: TM.TM, key: Key, k: Key)
    requires TM.Inv(m) && TM.Enabled(m, TM.Settle(key)) && !RollsBack(m, k)
    ensures var m' := TM.Settled(m, key); Latest(m'.coord, k) == Latest(m.coord, k) && !RollsBack(m', k)
  {
    TP.JobFactsHold(m, key);
    if TM.InPhase(m, key, TM.Finished(false)) {
      TP.FailShape(m, key);
      RelaunchKeepsLatest(m, TM.Settled(m, key), key, false, TP.NextEntry(m, key, false), k);
    } else if m.coord.speculative[key].id == m.tokens[key].job.id {
      TP.RestShape(m, key);
      CurrentEntry(m, key);
      RestKeepsLatest(m, TM.Settled(m, key), key, k);
    } else {
      TP.RecommitShape(m, key);
      RelaunchKeepsLatest(m, TM.Settled(m, key), key, true, m.coord.speculative[key], k);
    }
  }

  /** What a wake of `key` does to the latest intent of `k`. */
  lemma WakeOnLatest(m: TM.TM, key: Key, now: int, k: Key)
    requires TM.OneToken(m) && TM.AllOwned(m) && TM.AllStamped(m) && TM.Flagged(m) && TM.Chained(m)
    requires TM.Enabled(m, TM.WakeUp(key, now)) && !RollsBack(m, k)
    ensures var m' := TM.Step(m, TM.WakeUp(key, now));
            && Latest(m'.coord, k) == (if k == key && !IgnoresWake(m.coord, k)
                                       then Some(Entry(WakeStatus(k, now), m.coord.nextId))
                                       else Latest(m.coord, k))
            && m'.coord.nextId >= m.coord.nextId && !RollsBack(m', k)
  {
    TP.WakeShape(m, key, now);
    WakeIgnoredIff(m.coord, key, now);
    if !IgnoresWake(m.coord, key) {
      TP.AcceptedWakeShape(m, key, now);
      AcceptKeepsForward(m, TM.Step(m, TM.WakeUp(key, now)), key, WakeStatus(key, now), k);
    }
  }

  lemma AcceptKeepsForward(m: TM.TM, m': TM.TM, key: Key, status: Status, k: Key)
    requires TP.Accepting(m, m', key, status, false) && TM.OneToken(m) && TM.Chained(m) && !RollsBack(m, k)
    ensures !RollsBack(m', k)
    ensures Latest(m'.coord, k) == if k == key then Some(Entry(status, m.coord.nextId)) else Latest(m.coord, k)
  {
    assert k in m.tokens.Keys <==> k in m.coord.speculative.Keys;
  }

  lemma MoveKeepsLatest(m: TM.TM, e: TM.Event, k: Key)
    requires Calm(m, e) && (e.Arm? || e.Attempt?)
    ensures var m' := TM.Step(m, e);
            && m'.coord == m.coord && m'.wakes == m.wakes && m'.hist == m.hist
            && m'.tokens.Keys == m.tokens.Keys
            && (k in m.tokens ==> m'.tokens[k].job == m.tokens[k].job)
            && (k in m.tokens && m'.tokens[k].phase == TM.Finished(false) ==> m.tokens[k] == m'.tokens[k])
            && (k in m.tokens && m.tokens[k].phase == TM.Finished(false) ==> m.tokens[k] == m'.tokens[k])
  {}

  lemma WakeKeepsCalm(m: TM.TM, key: Key, now: int, k: Key)
    requires TM.OneToken(m) && TM.AllOwned(m) && TM.AllStamped(m) && TM.Flagged(m) && TM.Chained(m)
    requires TM.Enabled(m, TM.WakeUp(key, now)) && !RollsBack(m, k) && !WillWake(m, k)
    ensures var m' := TM.Step(m, TM.WakeUp(key, now));
            Latest(m'.coord, k) == Latest(m.coord, k) && !RollsBack(m', k) && !WillWake(m', k)
  {
    WakeOnLatest(m, key, now, k);
    WakeSpends(m, key, now);
  }

  lemma WakeSpends(m: TM.TM, key: Key, now: int)
    requires TM.Enabled(m, TM.WakeUp(key, now))
    ensures TM.Step(m, TM.WakeUp(key, now)).wakes == m.wakes - multiset{key}
  {}

  lemma SettleKeepsCalm(m: TM.TM, key: Key, k: Key)
    requires TM.Inv(m) && TM.Enabled(m, TM.Settle(key)) && !RollsBack(m, k) && !WillWake(m, k)
    ensures var m' := TM.Settled(m, key);
            Latest(m'.coord, k) == Latest(m.coord, k) && !RollsBack(m', k) && !WillWake(m', k)
  {
    SettleKeepsLatest(m, key, k);
    SettleKeepsClock(m, key);
  }

  lemma SettleKeepsClock(m: TM.TM, key: Key)
    requires TM.Enabled(m, TM.Settle(key))
    ensures TM.Settled(m, key).coord.nextId == m.coord.nextId && TM.Settled(m, key).wakes == m.wakes
  {}

  /** A key that neither rolls back nor wakes keeps its latest intent through every calm step. */
  lemma CalmKeeps(m: TM.TM, e: TM.Event, k: Key)
    requires TM.Inv(m) && Calm(m, e) && !RollsBack(m, k) && !WillWake(m, k)
    ensures var m' := TM.Step(m, e);
            Latest(m'.coord, k) == Latest(m.coord, k) && !RollsBack(m', k) && !WillWake(m', k)
  {
    match e
    case WakeUp(key, now) => WakeKeepsCalm(m, key, now, k);
    case Settle(key) => SettleKeepsCalm(m, key, k);
    case _ => MoveKeepsLatest(m, e, k);
  }

  lemma {:induction false} CalmRunKeeps(m: TM.TM, events: seq<TM.Event>, m': TM.TM, k: Key)
    requires TM.Inv(m) && CalmRun(m, events, m') && !RollsBack(m, k) && !WillWake(m, k)
    ensures Latest(m'.coord, k) == Latest(m.coord, k)
    decreases |events|
  {
    if events != [] {
      CalmKeeps(m, events[0], k);
      CalmKeepsInv(m, events[0]);
      CalmRunKeeps(TM.Step(m, events[0]), events[1..], m', k);
    }
  }

  lemma CalmKeepsInv(m: TM.TM, e: TM.Event)
    requires TM.Inv(m) && Calm(m, e)
    ensures TM.Inv(TM.Step(m, e))
  {
    TP.StepKeeps(m, e);
  }

  /** The latest intent of `k` has an id from `bound` on. */
  predicate Renewed(m: TM.TM, k: Key, bound: nat) {
    Latest(m.coord, k).Some? && Latest(m.coord, k).value.id >= bound
  }

  /** A key about to be woken, or woken already, and not rolled back. */
  predicate Waking(m: TM.TM, k: Key, bound: nat) {
    !RollsBack(m, k) && m.coord.nextId >= bound && (WillWake(m, k) || Renewed(m, k, bound))
  }

  lemma WakeKeepsWaking(m: TM.TM, key: Key, now: int, k: Key, bound: nat)
    requires TM.OneToken(m) && TM.AllOwned(m) && TM.AllStamped(m) && TM.Flagged(m) && TM.Chained(m)
    requires TM.Enabled(m, TM.WakeUp(key, now)) && Waking(m, k, bound)
    ensures Waking(TM.Step(m, TM.WakeUp(key, now)), k, bound)
  {
    WakeOnLatest(m, key, now, k);
    WakeSpends(m, key, now);
  }

  lemma SettleKeepsWaking(m: TM.TM, key: Key, k: Key, bound: nat)
    requires TM.Inv(m) && TM.Enabled(m, TM.Settle(key)) && Waking(m, k, bound)
    ensures Waking(TM.Settled(m, key), k, bound)
  {
    SettleKeepsLatest(m, key, k);
    SettleKeepsClock(m, key);
  }

  lemma CalmKeepsWaking(m: TM.TM, e: TM.Event, k: Key, bound: nat)
    requires TM.Inv(m) && Calm(m, e) && Waking(m, k, bound)
    ensures Waking(TM.Step(m, e), k, bound)
  {
    match e
    case WakeUp(key, now) => WakeKeepsWaking(m, key, now, k, bound);
    case Settle(key) => SettleKeepsWaking(m, key, k, bound);
    case _ => MoveKeepsLatest(m, e, k);
  }

  lemma {:induction false} CalmRunKeepsWaking(m: TM.TM, events: seq<TM.Event>, m': TM.TM, k: Key, bound: nat)
    requires TM.Inv(m) && CalmRun(m, events, m') && Waking(m, k, bound)
    ensures Waking(m', k, bound)
    decreases |events|
  {
    if events != [] {
      CalmKeepsWaking(m, events[0], k, bound);
      CalmKeepsInv(m, events[0]);
      CalmRunKeepsWaking(TM.Step(m, events[0]), events[1..], m', k, bound);
    }
  }

  /** The user job `id` of `k` has failed: the failure is on its way, or on record. */
  predicate Failing(m: TM.TM, k: Key, id: nat) {
    || id in m.hist.failed
    || (k in m.tokens && m.tokens[k].phase == TM.Finished(false) && m.tokens[k].job.userInitiated
        && m.tokens[k].job.id == id)
  }

  lemma AcceptKeepsFailing(m: TM.TM, m': TM.TM, key: Key, status: Status, k: Key, id: nat)
    requires TP.Accepting(m, m', key, status, false) && Failing(m, k, id)
    ensures Failing(m', k, id)
  {}

  lemma SettleKeepsFailing(m: TM.TM, key: Key, k: Key, id: nat)
    requires TM.Enabled(m, TM.Settle(key)) && m.tokens[key].job.key == key && Failing(m, k, id)
    ensures Failing(TM.Settled(m, key), k, id)
  {}

  lemma WakeKeepsFailing(m: TM.TM, key: Key, now: int, k: Key, id: nat)
    requires TM.OneToken(m) && TM.AllOwned(m) && TM.AllStamped(m) && TM.Flagged(m)
    requires TM.Enabled(m, TM.WakeUp(key, now)) && Failing(m, k, id)
    ensures Failing(TM.Step(m, TM.WakeUp(key, now)), k, id)
  {
    TP.WakeShape(m, key, now);
    if TM.AcceptsInput(m, WakeStatus(key, now)) {
      TP.AcceptedWakeShape(m, key, now);
      AcceptKeepsFailing(m, TM.Step(m, TM.WakeUp(key, now)), key, WakeStatus(key, now), k, id);
    }
  }

  lemma CalmKeepsFailing(m: TM.TM, e: TM.Event, k: Key, id: nat)
    requires TM.Inv(m) && Calm(m, e) && Failing(m, k, id)
    ensures Failing(TM.Step(m, e), k, id)
  {
    match e
    case WakeUp(key, now) => WakeKeepsFailing(m, key, now, k, id);
    case Settle(key) => SettleKeepsFailing(m, key, k, id);
    case _ => MoveKeepsLatest(m, e, k);
  }

  lemma {:induction false} CalmRunKeepsFailing(m: TM.TM, events: seq<TM.Event>, m': TM.TM, k: Key, id: nat)
    requires TM.Inv(m) && CalmRun(m, events, m') && Failing(m, k, id)
    ensures Failing(m', k, id) && TM.Inv(m')
    decreases |events|
  {
    if events != [] {
      CalmKeepsFailing(m, events[0], k, id);
      CalmKeepsInv(m, events[0]);
      CalmRunKeepsFailing(TM.Step(m, events[0]), events[1..], m', k, id);
    }
  }

  lemma LatestIsOld(m: TM.TM, k: Key)
    requires TM.AllStamped(m)
    ensures !Renewed(m, k, m.coord.nextId)
  {
    if k in m.coord.speculative {
      assert TM.Stamped(m.hist, k, m.coord.speculative[k].status, m.coord.speculative[k].id);
    } else if k in m.coord.confirmed {
      assert TM.Stamped(m.hist, k, m.coord.confirmed[k].status, m.coord.confirmed[k].id);
    }
  }

  /** No failure and no wake is under way. */
  ghost predicate Resting(m: TM.TM) {
    m.wakes == multiset{} && forall k :: k in m.tokens ==> m.tokens[k].phase != TM.Finished(false)
  }

  lemma RolledBackIsGone(m: TM.TM, events: seq<TM.Event>, m': TM.TM, k: Key)
    requires TM.Inv(m) && CalmRun(m, events, m') && Resting(m') && RollsBack(m, k)
    ensures Latest(m'.coord, k) != Latest(m.coord, k)
  {
    var id := m.tokens[k].job.id;
    CalmRunKeepsFailing(m, events, m', k, id);
    assert Latest(m.coord, k).value.id == id;
  }

  lemma WokenIsGone(m: TM.TM, events: seq<TM.Event>, m': TM.TM, k: Key)
    requires TM.Inv(m) && CalmRun(m, events, m') && Resting(m') && !RollsBack(m, k) && WillWake(m, k)
    ensures Latest(m'.coord, k) != Latest(m.coord, k)
  {
    CalmRunKeepsWaking(m, events, m', k, m.coord.nextId);
    LatestIsOld(m, k);
  }

  /** Over a calm run to rest, the latest intent of a key survives exactly when nothing under way rolls
      it back or wakes it. */
  lemma CalmRunEnds(m: TM.TM, events: seq<TM.Event>, m': TM.TM, k: Key)
    requires TM.Inv(m) && CalmRun(m, events, m') && Resting(m')
    ensures Latest(m'.coord, k) == Latest(m.coord, k) <==> !RollsBack(m, k) && !WillWake(m, k)
  {
    if RollsBack(m, k) {
      RolledBackIsGone(m, events, m', k);
    } else if WillWake(m, k) {
      WokenIsGone(m, events, m', k);
    } else {
      CalmRunKeeps(m, events, m', k);
    }
  }

  // ---- Which callers are answered ----

  /** Action `id`, which is for `k`, is answered or dispatched, or is the latest intent and no wake will
      take its place. */
  predicate Safe(m: TM.TM, k: Key, id: nat) {
    id in m.coord.pending ==>
      || (k in m.tokens && m.tokens[k].job.id == id)
      || (k in m.coord.speculative && m.coord.speculative[k].id == id && !WillWake(m, k))
  }

  lemma RestKeepsSafe(m: TM.TM, m': TM.TM, key: Key, k: Key, id: nat)
    requires key in m.tokens && TP.Resting(m, m', key, m.tokens[key].job)
    requires key in m.coord.speculative && m.coord.speculative[key].id == m.tokens[key].job.id
    requires Safe(m, k, id)
    ensures Safe(m', k, id)
  {}

  lemma RelaunchKeepsSafe(m: TM.TM, m': TM.TM, key: Key, ok: bool, e: Entry, k: Key, id: nat)
    requires key in m.tokens && TP.Relaunching(m, m', key, m.tokens[key].job, ok, e)
    requires key in m.coord.speculative
    requires e == m.coord.speculative[key] || m.coord.speculative[key].id == m.tokens[key].job.id
    requires Safe(m, k, id)
    ensures Safe(m', k, id)
  {}

  lemma SettleKeepsSafe(m: TM.TM, key: Key, k: Key, id: nat)
    requires TM.Inv(m) && TM.Enabled(m, TM.Settle(key)) && Safe(m, k, id)
    ensures Safe(TM.Settled(m, key), k, id)
  {
    TP.JobFactsHold(m, key);
    if TM.InPhase(m, key, TM.Finished(false)) {
      TP.FailShape(m, key);
      RelaunchKeepsSafe(m, TM.Settled(m, key), key, false, TP.NextEntry(m, key, false), k, id);
    } else if m.coord.speculative[key].id == m.tokens[key].job.id {
      TP.RestShape(m, key);
      RestKeepsSafe(m, TM.Settled(m, key), key, k, id);
    } else {
      TP.RecommitShape(m, key);
      RelaunchKeepsSafe(m, TM.Settled(m, key), key, true, m.coord.speculative[key], k, id);
    }
  }

  lemma AcceptKeepsSafe(m: TM.TM, m': TM.TM, key: Key, status: Status, k: Key, id: nat)
    requires TP.Accepting(m, m', key, status, false) && Safe(m, k, id)
    requires WillWake(m, key)
    ensures Safe(m', k, id)
  {}

  lemma WakeKeepsSafe(m: TM.TM, key: Key, now: int, k: Key, id: nat)
    requires TM.OneToken(m) && TM.AllOwned(m) && TM.AllStamped(m) && TM.Flagged(m)
    requires TM.Enabled(m, TM.WakeUp(key, now)) && Safe(m, k, id)
    ensures Safe(TM.Step(m, TM.WakeUp(key, now)), k, id)
  {
    TP.WakeShape(m, key, now);
    WakeIgnoredIff(m.coord, key, now);
    if TM.AcceptsInput(m, WakeStatus(key, now)) {
      TP.AcceptedWakeShape(m, key, now);
      AcceptKeepsSafe(m, TM.Step(m, TM.WakeUp(key, now)), key, WakeStatus(key, now), k, id);
    }
  }

  lemma CalmKeepsSafe(m: TM.TM, e: TM.Event, k: Key, id: nat)
    requires TM.Inv(m) && Calm(m, e) && Safe(m, k, id)
    ensures Safe(TM.Step(m, e), k, id)
  {
    match e
    case WakeUp(key, now) => WakeKeepsSafe(m, key, now, k, id);
    case Settle(key) => SettleKeepsSafe(m, key, k, id);
    case _ => MoveKeepsLatest(m, e, k);
  }

  lemma {:induction false} CalmRunKeepsSafe(m: TM.TM, events: seq<TM.Event>, m': TM.TM, k: Key, id: nat)
    requires TM.Inv(m) && CalmRun(m, events, m') && Safe(m, k, id)
    ensures Safe(m', k, id)
    decreases |events|
  {
    if events != [] {
      CalmKeepsSafe(m, events[0], k, id);
      CalmKeepsInv(m, events[0]);
      CalmRunKeepsSafe(TM.Step(m, events[0]), events[1..], m', k, id);
    }
  }

  // ---- The pipeline ----

  /** A failed job of `k` is on its way back to the coordinator. */
  ghost predicate FailureUnderWay(s: Sys, k: Key) {
    exists channel: Channel, i: nat ::
      TokenAt(s, k, channel, i) && PhaseOf(ContentsOf(s)[channel][i].place) == TM.Finished(false)
  }

  /** The job is a user's and still the latest intent of its key. */
  predicate CurrentUserJob(s: Sys, job: Job) {
    job.userInitiated && job.key in s.coord.speculative && s.coord.speculative[job.key].id == job.id
  }

  /** The failure under way will roll `k` back: the failed job is a user's and still the latest intent. */
  ghost predicate Rolling(s: Sys, k: Key) {
    FailureUnderWay(s, k) && exists job :: Outstanding(s, job) && job.key == k && CurrentUserJob(s, job)
  }

  /** A wake of `k` is under way that its latest intent will not ignore. */
  predicate Waked(s: Sys, k: Key) {
    k in WakesUnderWay(s) && !IgnoresWake(s.coord, k)
  }

  lemma FailureIsPhase(s: Sys, m: TM.TM, places: map<Key, Place>, k: Key)
    requires Link(s, m, places)
    ensures FailureUnderWay(s, k) <==> k in m.tokens && m.tokens[k].phase == TM.Finished(false)
  {
    if channel: Channel, i: nat :| TokenAt(s, k, channel, i)
                                  && PhaseOf(ContentsOf(s)[channel][i].place) == TM.Finished(false) {
      Found(s, m, places, channel, i);
    }
    if k in m.tokens && m.tokens[k].phase == TM.Finished(false) {
      assert k in m.tokens.Keys;
      var i := PlaceHasToken(s, places, k);
      Found(s, m, places, places[k].Where(), i);
    }
  }

  lemma RollingIsRollsBack(s: Sys, m: TM.TM, places: map<Key, Place>, k: Key)
    requires Link(s, m, places)
    ensures Rolling(s, k) <==> RollsBack(m, k)
  {
    FailureIsPhase(s, m, places, k);
    if job :| Outstanding(s, job) && job.key == k && CurrentUserJob(s, job) {
      OutstandingIsToken(s, m, places, job);
    }
    if RollsBack(m, k) {
      TokenIsOutstanding(s, m, places, k);
      JobIsOwn(m, places, k);
      assert CurrentUserJob(s, m.tokens[k].job);
    }
  }

  lemma JobIsOwn(m: TM.TM, places: map<Key, Place>, k: Key)
    requires Located(m.tokens, places) && k in m.tokens
    ensures m.tokens[k].job.key == k
  {
    assert k in m.tokens.Keys;
  }

  lemma QuietEnds(hydrated: map<Key, Status>, s: Sys, actions: seq<Action>, s': Sys)
    returns (m: TM.TM, places: map<Key, Place>, m': TM.TM, events: seq<TM.Event>)
    requires TP.Hydration(hydrated) && Pipeline.Reachable(hydrated, s)
    requires QuietRun(s, actions, s') && Stuck(s')
    ensures Implements(s, m, places) && CalmRun(m, events, m') && Resting(m') && m'.coord == s'.coord
    ensures WakesRepresentable(s') ==> m'.tokens == map[] && m'.coord.speculative == map[]
  {
    m, places := ReachableImplements(hydrated, s);
    var places';
    m', places', events := QuietImplements(s, m, places, actions, s');
    StuckRests(s', m', places');
  }

  lemma StuckRests(s: Sys, m: TM.TM, places: map<Key, Place>)
    requires Link(s, m, places) && TM.OneToken(m) && Stuck(s)
    ensures Resting(m)
    ensures WakesRepresentable(s) ==> m.tokens == map[] && m.coord.speculative == map[]
  {
    StuckIsDrained(s);
    forall k | k in m.tokens
      ensures m.tokens[k].phase != TM.Finished(false)
    {
      OnlySnoozesLeft(s, m, places, k);
    }
    if WakesRepresentable(s) {
      StuckIsEmpty(s);
      EmptyTotal(s);
      Occupancy(ContentsOf(s), places);
      assert m.tokens.Keys == {} && m.coord.speculative.Keys == {};
    }
  }

  lemma OnlySnoozesLeft(s: Sys, m: TM.TM, places: map<Key, Place>, k: Key)
    requires Link(s, m, places) && k in m.tokens
    requires s.jobs == [] && s.snoozeReplies == [] && s.publishes == [] && s.engine.inFlight == []
    requires s.engine.completedBatch == [] && s.publishReplies == [] && s.hand == [] && s.outcomes == []
    ensures m.tokens[k].phase == TM.Dispatched
  {
    assert k in m.tokens.Keys;
    var i := PlaceHasToken(s, places, k);
    assert |ContentsOf(s)[places[k].Where()]| > 0;
    assert places[k].Where() == SnoozeChannel;
  }

  /** Convergence. Let inputs and expiries stop in any reachable state, and let publishes succeed and
      wakes be accepted from then on. Where the pipeline comes to rest, the latest intent of a key is still
      the one it had when the inputs stopped, if and only if no failure under way rolls it back and no wake
      under way takes its place. */
  lemma ConvergesIff(hydrated: map<Key, Status>, s: Sys, actions: seq<Action>, s': Sys, k: Key)
    requires TP.Hydration(hydrated) && Pipeline.Reachable(hydrated, s)
    requires QuietRun(s, actions, s') && Stuck(s')
    ensures Latest(s'.coord, k) == Latest(s.coord, k) <==> !Rolling(s, k) && !Waked(s, k)
  {
    var m, places, m', events := QuietEnds(hydrated, s, actions, s');
    CalmRunEnds(m, events, m', k);
    RollingIsRollsBack(s, m, places, k);
  }

  /** For all keys at once; and unless a snooze is left whose wake time is not a date, what is confirmed
      then is the view of the moment the inputs stopped. */
  lemma Converges(hydrated: map<Key, Status>, s: Sys, actions: seq<Action>, s': Sys)
    requires TP.Hydration(hydrated) && Pipeline.Reachable(hydrated, s)
    requires QuietRun(s, actions, s') && Stuck(s')
    ensures IntentsOf(s'.coord).view == IntentsOf(s.coord).view <==> forall k :: !Rolling(s, k) && !Waked(s, k)
    ensures WakesRepresentable(s') ==>
              s'.coord.speculative == map[] && s'.coord.confirmed == IntentsOf(s'.coord).view
  {
    QuietStaysReachable(hydrated, s, actions, s');
    StuckIsSettled(hydrated, s');
    forall k
      ensures Lookup(IntentsOf(s'.coord).view, k) == Lookup(IntentsOf(s.coord).view, k) <==>
              !Rolling(s, k) && !Waked(s, k)
    {
      ConvergesIff(hydrated, s, actions, s', k);
    }
    SameLookups(IntentsOf(s'.coord).view, IntentsOf(s.coord).view);
  }

  function Lookup(cache: Cache, k: Key): Option<Entry> {
    if k in cache then Some(cache[k]) else None
  }

  lemma SameLookups(a: Cache, b: Cache)
    ensures a == b <==> forall k :: Lookup(a, k) == Lookup(b, k)
  {
    if forall k :: Lookup(a, k) == Lookup(b, k) {
      forall k
        ensures k in a <==> k in b
        ensures k in a ==> a[k] == b[k]
      {
        assert Lookup(a, k) == Lookup(b, k);
      }
    }
  }

  // ---- The callers of the pipeline ----

  lemma {:induction false} QuietRunIsRun(s: Sys, actions: seq<Action>, s': Sys)
    requires QuietRun(s, actions, s')
    ensures Pipeline.Runs(s, actions, s')
    decreases |actions|
  {
    if actions != [] {
      QuietRunIsRun(Pipeline.Step(s, actions[0]), actions[1..], s');
    }
  }

  /** The action is a latest intent that waits for its turn, and a wake under way may take its place
      before that. */
  ghost predicate Endangered(s: Sys, id: nat) {
    && (exists k :: k in s.coord.speculative && s.coord.speculative[k].id == id && Waked(s, k))
    && (forall job :: Outstanding(s, job) ==> job.id != id)
  }

  lemma NotAbandonedIsSafe(s: Sys, m: TM.TM, places: map<Key, Place>, id: nat)
    requires Implements(s, m, places) && id in s.coord.pending && !Abandoned(s, id) && !Endangered(s, id)
    ensures id in m.hist.issued && Safe(m, m.hist.issued[id].key, id)
  {
    AbandonedIsSuperseded(s, m, places, id);
    assert id in m.hist.issued && id != HYDRATED_ID;
    var key := m.hist.issued[id].key;
    TP.UserIdIsPrivate(m, key, id);
    if !(key in m.tokens && m.tokens[key].job.id == id) {
      forall job | Outstanding(s, job)
        ensures job.id != id
      {
        OutstandingIsToken(s, m, places, job);
      }
    }
  }

  /** Over a quiet run to rest, a pending caller stays unanswered if and only if its action was abandoned
      before the run, unless a wake under way may still take the action's place. */
  lemma AnsweredIff(hydrated: map<Key, Status>, s: Sys, actions: seq<Action>, s': Sys, id: nat)
    requires TP.Hydration(hydrated) && Pipeline.Reachable(hydrated, s)
    requires QuietRun(s, actions, s') && Stuck(s') && WakesRepresentable(s')
    requires id in s.coord.pending && !Endangered(s, id)
    ensures id in s'.coord.pending <==> Abandoned(s, id)
  {
    if Abandoned(s, id) {
      QuietRunIsRun(s, actions, s');
      AbandonedForever(hydrated, s, actions, s', id);
    } else {
      var m, places, m', events := QuietEnds(hydrated, s, actions, s');
      NotAbandonedIsSafe(s, m, places, id);
      CalmRunKeepsSafe(m, events, m', m.hist.issued[id].key, id);
    }
  }

  /** At rest only abandoned callers wait. */
  lemma WaitingIsAbandoned(hydrated: map<Key, Status>, s: Sys, id: nat)
    requires TP.Hydration(hydrated) && Pipeline.Reachable(hydrated, s) && Stuck(s) && WakesRepresentable(s)
    ensures id in s.coord.pending <==> Abandoned(s, id)
  {
    var m, places := ReachableImplements(hydrated, s);
    StuckRests(s, m, places);
    AbandonedIsSuperseded(s, m, places, id);
  }

  /** The endangered included: over a quiet run to rest, a pending caller stays unanswered if and only if
      its action was abandoned before the run, or a wake took its place during the run. */
  lemma AnsweredUnlessReplaced(hydrated: map<Key, Status>, s: Sys, actions: seq<Action>, s': Sys, id: nat)
    requires TP.Hydration(hydrated) && Pipeline.Reachable(hydrated, s)
    requires QuietRun(s, actions, s') && Stuck(s') && WakesRepresentable(s')
    requires id in s.coord.pending
    ensures id in s'.coord.pending <==> Abandoned(s, id) || EverReplaced(s, actions, id)
  {
    QuietRunIsRun(s, actions, s');
    QuietStaysReachable(hydrated, s, actions, s');
    WaitingIsAbandoned(hydrated, s', id);
    AbandonedIffReplaced(hydrated, s, actions, s', id);
  }

  lemma {:induction false} QuietStaysReachable(hydrated: map<Key, Status>, s: Sys, actions: seq<Action>, s': Sys)
    requires Pipeline.Reachable(hydrated, s) && QuietRun(s, actions, s')
    ensures Pipeline.Reachable(hydrated, s')
    decreases |actions|
  {
    if actions != [] {
      ReachableStep(hydrated, s, actions[0]);
      QuietStaysReachable(hydrated, Pipeline.Step(s, actions[0]), actions[1..], s');
    }
  }
}
