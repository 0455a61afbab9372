/** What holds in every reachable state, and over every run, of the whole pipeline. */
module PipelineTheorems {
  import opened Types
  import opened Keys
  import opened Policy
  import opened Coordinator
  import opened Messages
  import opened Pipeline
  import opened Places
  import opened Refinement
  import Workflow
  import Replay
  import TM = TokenMachine
  import TP = TokenProofs

  /** A pipeline state together with the token machine state it implements. */
  ghost predicate Implements(s: Sys, m: TM.TM, places: map<Key, Place>) {
    Link(s, m, places) && TM.Inv(m)
  }

  lemma InitContents(hydrated: map<Key, Status>)
    ensures AllHold(ContentsOf(Pipeline.Init(hydrated)), map[])
  {
    var s := Pipeline.Init(hydrated);
    assert ResultsUnderWay(s) == [];
    forall channel: Channel
      ensures ContentsOf(s)[channel] == []
    {
      match channel
      case JobChannel =>
      case _ =>
    }
  }

  lemma InitLinks(hydrated: map<Key, Status>)
    ensures Link(Pipeline.Init(hydrated), TM.Init(hydrated), map[])
  {
    InitContents(hydrated);
  }

  lemma InitImplements(hydrated: map<Key, Status>)
    requires TP.Hydration(hydrated)
    ensures Implements(Pipeline.Init(hydrated), TM.Init(hydrated), map[])
  {
    TP.InitHolds(hydrated);
    InitLinks(hydrated);
  }

  lemma StepImplements(s: Sys, m: TM.TM, places: map<Key, Place>, a: Action) returns (places': map<Key, Place>)
    requires Implements(s, m, places) && Pipeline.Enabled(s, a) && Pipeline.Admissible(a)
    ensures Meaning(s, a).Some? ==> TM.Enabled(m, Meaning(s, a).value) && TM.Admissible(Meaning(s, a).value)
    ensures Implements(Pipeline.Step(s, a), After(m, Meaning(s, a)), places')
  {
    places' := ActionRefines(s, m, places, a);
    MeaningAdmissible(s, a);
    MeaningKeeps(m, Meaning(s, a));
  }

  lemma MeaningAdmissible(s: Sys, a: Action)
    requires Pipeline.Enabled(s, a) && Pipeline.Admissible(a)
    ensures Meaning(s, a).Some? ==> TM.Admissible(Meaning(s, a).value)
  {}

  lemma MeaningKeeps(m: TM.TM, e: Option<TM.Event>)
    requires TM.Inv(m) && (e.Some? ==> TM.Enabled(m, e.value) && TM.Admissible(e.value))
    ensures TM.Inv(After(m, e))
  {
    if e.Some? {
      TP.StepKeeps(m, e.value);
    }
  }

  lemma {:induction false} RunImplements(s: Sys, m: TM.TM, places: map<Key, Place>, actions: seq<Action>, s': Sys)
    returns (m': TM.TM, places': map<Key, Place>, events: seq<TM.Event>)
    requires Implements(s, m, places) && Pipeline.Runs(s, actions, s')
    ensures Implements(s', m', places') && TP.Runs(m, events, m')
    decreases |actions|
  {
    if actions == [] {
      m', places', events := m, places, [];
    } else {
      var a := actions[0];
      var places1 := StepImplements(s, m, places, a);
      var rest;
      m', places', rest := RunImplements(Pipeline.Step(s, a), After(m, Meaning(s, a)), places1, actions[1..], s');
      events := Prepend(m, Meaning(s, a), rest, m');
    }
  }

  lemma Prepend(m: TM.TM, e: Option<TM.Event>, rest: seq<TM.Event>, m': TM.TM) returns (events: seq<TM.Event>)
    requires e.Some? ==> TM.Enabled(m, e.value) && TM.Admissible(e.value)
    requires TP.Runs(After(m, e), rest, m')
    ensures TP.Runs(m, events, m')
  {
    if e.Some? {
      events := [e.value] + rest;
      assert events[1..] == rest;
    } else {
      events := rest;
    }
  }

  /** Every reachable pipeline state implements a reachable token machine state. */
  lemma ReachableImplements(hydrated: map<Key, Status>, s: Sys) returns (m: TM.TM, places: map<Key, Place>)
    requires TP.Hydration(hydrated) && Pipeline.Reachable(hydrated, s)
    ensures Implements(s, m, places) && TP.Reachable(hydrated, m) && m.hist.hydrated == hydrated
  {
    var actions :| Pipeline.Runs(Pipeline.Init(hydrated), actions, s);
    InitImplements(hydrated);
    var events;
    m, places, events := RunImplements(Pipeline.Init(hydrated), TM.Init(hydrated), map[], actions, s);
    HydratedFixed(TM.Init(hydrated), events, m);
  }

  lemma {:induction false} HydratedFixed(m: TM.TM, events: seq<TM.Event>, m': TM.TM)
    requires TP.Runs(m, events, m')
    ensures m'.hist.hydrated == m.hist.hydrated
    decreases |events|
  {
    if events != [] {
      HydratedFixed(TM.Step(m, events[0]), events[1..], m');
    }
  }

  // ---- One token per key ----

  /** Position `i` of the channel holds the token of `k`. */
  ghost predicate TokenAt(s: Sys, k: Key, channel: Channel, i: nat) {
    i < |ContentsOf(s)[channel]| && ContentsOf(s)[channel][i].key == k
  }

  /** No task ever panics, stops on lost state or overruns the workflow. */
  lemma NothingBreaks(hydrated: map<Key, Status>, s: Sys)
    requires TP.Hydration(hydrated) && Pipeline.Reachable(hydrated, s)
    ensures !s.broken
  {
    var m, places := ReachableImplements(hydrated, s);
  }

  lemma TokenHasPlace(s: Sys, places: map<Key, Place>, k: Key, channel: Channel, i: nat)
    requires AllHold(ContentsOf(s), places) && TokenAt(s, k, channel, i)
    ensures k in places && places[k].Where() == channel
  {
    assert Holds(ContentsOf(s)[channel], places, channel);
  }

  lemma PlaceHasToken(s: Sys, places: map<Key, Place>, k: Key) returns (i: nat)
    requires AllHold(ContentsOf(s), places) && k in places
    ensures TokenAt(s, k, places[k].Where(), i)
  {
    var channel := places[k].Where();
    assert Holds(ContentsOf(s)[channel], places, channel);
    assert Held(k, places[k]) in ContentsOf(s)[channel];
    i :| 0 <= i < |ContentsOf(s)[channel]| && ContentsOf(s)[channel][i] == Held(k, places[k]);
  }

  /** A key has speculative state exactly when some channel holds a token for it. */
  lemma TokenIffSpeculative(hydrated: map<Key, Status>, s: Sys, k: Key)
    requires TP.Hydration(hydrated) && Pipeline.Reachable(hydrated, s)
    ensures k in s.coord.speculative <==> exists channel: Channel, i: nat :: TokenAt(s, k, channel, i)
  {
    var m, places := ReachableImplements(hydrated, s);
    assert places.Keys == s.coord.speculative.Keys;
    if k in s.coord.speculative {
      var i := PlaceHasToken(s, places, k);
    }
    if channel: Channel, i: nat :| TokenAt(s, k, channel, i) {
      TokenHasPlace(s, places, k, channel, i);
    }
  }

  /** It is never in two channels, nor twice in one. */
  lemma TokenIsUnique(hydrated: map<Key, Status>, s: Sys, k: Key, c1: Channel, i1: nat, c2: Channel, i2: nat)
    requires TP.Hydration(hydrated) && Pipeline.Reachable(hydrated, s)
    requires TokenAt(s, k, c1, i1) && TokenAt(s, k, c2, i2)
    ensures c1 == c2 && i1 == i2
  {
    var m, places := ReachableImplements(hydrated, s);
    assert Holds(ContentsOf(s)[c1], places, c1);
    assert Holds(ContentsOf(s)[c2], places, c2);
  }

  predicate Handling(channel: Channel) {
    channel != JobChannel && channel != OutcomeChannel
  }

  /** The workflow handler tracks exactly the keys whose token is between the snooze command and the
      publish result, with one step taken before the snooze is accepted and two after. */
  lemma WorkflowTracksTokens(hydrated: map<Key, Status>, s: Sys, k: Key)
    requires TP.Hydration(hydrated) && Pipeline.Reachable(hydrated, s)
    ensures k in s.workflow <==> exists channel: Channel, i: nat :: TokenAt(s, k, channel, i) && Handling(channel)
    ensures forall channel: Channel, i: nat :: TokenAt(s, k, channel, i) && Handling(channel) ==>
              k in s.workflow
              && s.workflow[k].step == (if channel == SnoozeChannel || channel == ReplyChannel then 1 else 2)
  {
    var m, places := ReachableImplements(hydrated, s);
    TracksByPlace(s.workflow, m.tokens, places, k);
    if k in s.workflow {
      var i := PlaceHasToken(s, places, k);
      assert Handling(places[k].Where());
    }
    forall channel: Channel, i: nat | TokenAt(s, k, channel, i) && Handling(channel)
      ensures k in s.workflow
      ensures s.workflow[k].step == (if channel == SnoozeChannel || channel == ReplyChannel then 1 else 2)
    {
      TokenHasPlace(s, places, k, channel, i);
    }
  }

  lemma TracksByPlace(workflow: Workflow.Jobs, tokens: Tokens, places: map<Key, Place>, k: Key)
    requires Located(tokens, places) && Tracks(workflow, tokens, places)
    ensures k in workflow <==> k in places && Handling(places[k].Where())
    ensures k in workflow ==>
              var channel := places[k].Where();
              workflow[k].step == if channel == SnoozeChannel || channel == ReplyChannel then 1 else 2
  {
    assert TracksKey(workflow, tokens, places, k);
  }

  /** The channels together hold exactly one token for each key with speculative state. */
  lemma OccupancyIsSpeculative(hydrated: map<Key, Status>, s: Sys)
    requires TP.Hydration(hydrated) && Pipeline.Reachable(hydrated, s)
    ensures Total(ContentsOf(s)) == |s.coord.speculative|
  {
    var m, places := ReachableImplements(hydrated, s);
    Occupancy(ContentsOf(s), places);
    assert |places.Keys| == |s.coord.speculative.Keys|;
  }

  // ---- Snoozes ----

  /** The key has no outstanding job. */
  predicate AtRest(s: Sys, k: Key) {
    k !in s.coord.speculative
  }

  predicate PublishedHere(s: Sys, k: Key) {
    Replay.LastPublished(s.log, k).Some?
  }

  /** No snooze is forgotten and no timer is orphaned. For a key at rest, a timer means that the
      confirmed status is snoozed; and a snoozed confirmed status has its timer, or the expiry of that
      timer on its way to the coordinator, exactly when the key was published in this run. A snooze that
      was hydrated at startup therefore has none. */
  lemma SnoozeIsKept(hydrated: map<Key, Status>, s: Sys, k: Key)
    requires TP.Hydration(hydrated) && Pipeline.Reachable(hydrated, s) && AtRest(s, k)
    ensures k in s.timers ==> TM.WakeOf(s.coord.confirmed, k).Some?
    ensures TM.WakeOf(s.coord.confirmed, k).Some? ==>
              (k in s.timers || Expired(k) in s.snoozeReplies || Wake(k) in s.outcomes <==> PublishedHere(s, k))
  {
    var m, places := ReachableImplements(hydrated, s);
    assert k !in m.tokens.Keys;
    assert TM.TimerAgrees(m, k) && TM.LogAgrees(m, k);
    TP.ReachableUntouched(hydrated, m, k);
    ExpiryMessage(s.snoozeReplies, k);
    WakeMessage(s.outcomes, k);
  }

  lemma WakeAtRest(c: Coord, k: Key, now: int)
    requires k !in c.speculative && k in c.confirmed && c.confirmed[k].status.state == Bypassed
    requires Normal(k) && c.nextId !in c.pending
    ensures var eff := AfterWake(c, k, now);
            && eff.coord.speculative == c.speculative[k := Entry(WakeStatus(k, now), c.nextId)]
            && eff.jobs == [Job(c.nextId, k, WakeStatus(k, now), false)]
  {
    assert KeyOf(WakeStatus(k, now)) == k;
  }

  lemma SnoozedIsBypassed(m: TM.TM, k: Key)
    requires TM.Inv(m) && TM.WakeOf(m.coord.confirmed, k).Some?
    ensures Normal(k) && m.coord.confirmed[k].status.state == Bypassed && m.coord.nextId !in m.coord.pending
  {
    assert TM.Owned(k, m.coord.confirmed[k].status);
    assert m.coord.nextId !in m.hist.issued;
  }

  /** And the wake that arrives at a snoozed key at rest is never refused: it becomes the key's latest
      intent and is dispatched at once. */
  lemma WakeReleases(hydrated: map<Key, Status>, s: Sys, k: Key, now: int)
    requires TP.Hydration(hydrated) && Pipeline.Reachable(hydrated, s) && AtRest(s, k)
    requires Pipeline.Enabled(s, TakeOutcome(now)) && s.outcomes[0] == Wake(k)
    requires TM.WakeOf(s.coord.confirmed, k).Some?
    ensures var s' := Pipeline.Step(s, TakeOutcome(now));
            var id := s.coord.nextId;
            && s'.coord.speculative == s.coord.speculative[k := Entry(WakeStatus(k, now), id)]
            && s'.jobs == s.jobs + [Job(id, k, WakeStatus(k, now), false)]
  {
    var m, places := ReachableImplements(hydrated, s);
    SnoozedIsBypassed(m, k);
    WakeAtRest(s.coord, k, now);
  }

  // ---- Crash recovery ----

  /** The hydrated EPICS entries are what replaying the initial topic gives. */
  ghost predicate HydratedFrom(codec: Replay.Codec, initial: seq<Replay.Record>, hydrated: map<Key, Status>) {
    forall k :: Canonical(k) && k.source == Epics ==>
                  Replay.Lookup(hydrated, k) == Replay.BypassOf(Replay.LastVerdict(codec, initial, k))
  }

  /** Whenever a canonical EPICS key is at rest, a restart that replays the whole topic restores exactly
      its confirmed status when that is a bypass, and nothing otherwise; even though attempts reported
      as failed may have been appended in between. */
  lemma CrashRecovery(hydrated: map<Key, Status>, s: Sys, codec: Replay.Codec, initial: seq<Replay.Record>, k: Key)
    requires TP.Hydration(hydrated) && Pipeline.Reachable(hydrated, s) && AtRest(s, k)
    requires Replay.Faithful(codec) && HydratedFrom(codec, initial, hydrated)
    requires Canonical(k) && k.source == Epics
    ensures Replay.BypassOf(Replay.LastVerdict(codec, initial + Replay.Render(codec, s.log), k)) ==
            if k in s.coord.confirmed then Replay.BypassIn(s.coord.confirmed[k].status) else None
  {
    var m, places := ReachableImplements(hydrated, s);
    assert k !in m.tokens.Keys;
    assert TM.LogAgrees(m, k);
    Replay.ReplayPublished(codec, initial, s.log, k);
    if k !in m.hist.committed && k in s.coord.confirmed {
      assert s.coord.confirmed[k].status == hydrated[k];
      Replay.RestoredIsBypassed(codec, initial, k);
    }
  }

  // ---- Snapshots ----

  function ConfirmedStatus(c: Coord, k: Key): Option<Status> {
    if k in c.confirmed then Some(c.confirmed[k].status) else None
  }

  /** What a snapshot shows of a status. */
  function Filtered(status: Option<Status>): Option<Status> {
    if status.Some? && (status.value.state == Ok || status.value.state == Unbypassed) then None else status
  }

  /** The status of the last `Committed` outcome for `k` that the coordinator takes in the run; `before`
      if there is none. */
  ghost function LastCommit(s: Sys, before: Option<Status>, actions: seq<Action>, k: Key): Option<Status>
    decreases |actions|
  {
    if actions == [] || !Pipeline.Enabled(s, actions[0]) then before
    else LastCommit(Pipeline.Step(s, actions[0]), CommitOf(s, before, actions[0], k), actions[1..], k)
  }

  function CommitOf(s: Sys, before: Option<Status>, a: Action, k: Key): Option<Status>
    requires Pipeline.Enabled(s, a)
  {
    if a.TakeOutcome? && s.outcomes[0].Committed? && s.outcomes[0].job.key == k
    then Some(s.outcomes[0].job.status) else before
  }

  /** `last` is the last commit of `k`: it is what is confirmed, and it is in the topic. */
  ghost predicate OnDisplay(hydrated: map<Key, Status>, s: Sys, last: Option<Status>, k: Key) {
    && ConfirmedStatus(s.coord, k) == (if last.Some? then last else Replay.Lookup(hydrated, k))
    && (last.Some? ==> Replay.Published(k, last.value) in s.log)
  }

  lemma CommitIsLogged(s: Sys, m: TM.TM, places: map<Key, Place>, now: int, job: Job)
    requires Implements(s, m, places) && Pipeline.Enabled(s, TakeOutcome(now)) && s.outcomes[0] == Committed(job)
    ensures Replay.Published(job.key, job.status) in s.log
  {
    DropLinks(s, m, places, job, true);
    assert TM.LogAgrees(m, job.key);
    TP.PublishedIsLogged(s.log, job.key, job.status);
  }

  lemma LogGrows(s: Sys, a: Action)
    requires Pipeline.Enabled(s, a)
    ensures forall p :: p in s.log ==> p in Pipeline.Step(s, a).log
  {}

  lemma StepConfirms(s: Sys, a: Action, k: Key)
    requires Pipeline.Enabled(s, a)
    ensures ConfirmedStatus(Pipeline.Step(s, a).coord, k) ==
            CommitOf(s, ConfirmedStatus(s.coord, k), a, k)
  {}

  lemma StepOnDisplay(hydrated: map<Key, Status>, s: Sys, m: TM.TM, places: map<Key, Place>, a: Action,
                      last: Option<Status>, k: Key)
    requires Implements(s, m, places) && Pipeline.Enabled(s, a) && OnDisplay(hydrated, s, last, k)
    ensures OnDisplay(hydrated, Pipeline.Step(s, a), CommitOf(s, last, a, k), k)
  {
    StepConfirms(s, a, k);
    LogGrows(s, a);
    if a.TakeOutcome? && s.outcomes[0].Committed? {
      CommitIsLogged(s, m, places, a.now, s.outcomes[0].job);
    }
  }

  lemma {:induction false} RunOnDisplay(hydrated: map<Key, Status>, s: Sys, m: TM.TM, places: map<Key, Place>,
                                        last: Option<Status>, actions: seq<Action>, s': Sys, k: Key)
    requires Implements(s, m, places) && Pipeline.Runs(s, actions, s') && OnDisplay(hydrated, s, last, k)
    ensures OnDisplay(hydrated, s', LastCommit(s, last, actions, k), k)
    decreases |actions|
  {
    if actions != [] {
      var a := actions[0];
      var places1 := StepImplements(s, m, places, a);
      StepOnDisplay(hydrated, s, m, places, a, last, k);
      RunOnDisplay(hydrated, Pipeline.Step(s, a), After(m, Meaning(s, a)), places1, CommitOf(s, last, a, k),
                   actions[1..], s', k);
    }
  }

  /** Nothing unpublished is visible. After any run a snapshot shows, for each key, the status of its most
      recent commit, which is in the topic, or the hydrated status if there was none; and shows it exactly
      if it is neither `Ok` nor `Unbypassed`. */
  lemma VisibleIsPublished(hydrated: map<Key, Status>, actions: seq<Action>, s: Sys, k: Key)
    requires TP.Hydration(hydrated) && Pipeline.Runs(Pipeline.Init(hydrated), actions, s)
    ensures var last := LastCommit(Pipeline.Init(hydrated), None, actions, k);
            && Replay.Lookup(Visible(s.coord), k) ==
               Filtered(if last.Some? then last else Replay.Lookup(hydrated, k))
            && (last.Some? ==> Replay.Published(k, last.value) in s.log)
  {
    RunDisplay(hydrated, actions, s, k);
    VisibleIsFiltered(s.coord, k);
  }

  lemma RunDisplay(hydrated: map<Key, Status>, actions: seq<Action>, s: Sys, k: Key)
    requires TP.Hydration(hydrated) && Pipeline.Runs(Pipeline.Init(hydrated), actions, s)
    ensures OnDisplay(hydrated, s, LastCommit(Pipeline.Init(hydrated), None, actions, k), k)
  {
    var m, places := FirstDisplay(hydrated, k);
    RunOnDisplay(hydrated, Pipeline.Init(hydrated), m, places, None, actions, s, k);
  }

  lemma FirstDisplay(hydrated: map<Key, Status>, k: Key) returns (m: TM.TM, places: map<Key, Place>)
    requires TP.Hydration(hydrated)
    ensures Implements(Pipeline.Init(hydrated), m, places) && OnDisplay(hydrated, Pipeline.Init(hydrated), None, k)
  {
    InitImplements(hydrated);
    m, places := TM.Init(hydrated), map[];
  }

  lemma VisibleIsFiltered(c: Coord, k: Key)
    ensures Replay.Lookup(Visible(c), k) == Filtered(ConfirmedStatus(c, k))
  {}

  /** The status of `k` that the topic ends with, or else the one hydrated at startup. */
  ghost function OnRecord(hydrated: map<Key, Status>, s: Sys, k: Key): Option<Status> {
    if PublishedHere(s, k) then Replay.LastPublished(s.log, k) else Replay.Lookup(hydrated, k)
  }

  /** At rest, the confirmed status of a key is the last one published for it, or the hydrated one if
      there is none; and a snapshot shows exactly that unless it is `Ok` or `Unbypassed`. */
  lemma VisibleIsLast(hydrated: map<Key, Status>, s: Sys, k: Key)
    requires TP.Hydration(hydrated) && Pipeline.Reachable(hydrated, s) && AtRest(s, k)
    ensures ConfirmedStatus(s.coord, k) == OnRecord(hydrated, s, k)
    ensures Replay.Lookup(Visible(s.coord), k) == Filtered(OnRecord(hydrated, s, k))
  {
    RestIsOnRecord(hydrated, s, k);
    VisibleIsFiltered(s.coord, k);
  }

  lemma RestIsOnRecord(hydrated: map<Key, Status>, s: Sys, k: Key)
    requires TP.Hydration(hydrated) && Pipeline.Reachable(hydrated, s) && AtRest(s, k)
    ensures ConfirmedStatus(s.coord, k) == OnRecord(hydrated, s, k)
  {
    var m, places := ReachableImplements(hydrated, s);
    RestAgrees(s, m, k);
  }

  lemma RestAgrees(s: Sys, m: TM.TM, k: Key)
    requires s.coord == m.coord && s.log == m.log && AtRest(s, k)
    requires TM.OneToken(m) && TM.LogsAgree(m) && TM.ConfirmedIsCommitted(m)
    ensures ConfirmedStatus(s.coord, k) == OnRecord(m.hist.hydrated, s, k)
  {
    assert k !in m.tokens.Keys;
    assert TM.LogAgrees(m, k);
  }

  // ---- Ids ----

  /** The job is waiting for the workflow handler, tracked by it, or reported back. */
  ghost predicate Outstanding(s: Sys, job: Job) {
    || job in s.jobs
    || (job.key in s.workflow && s.workflow[job.key].job == job)
    || Committed(job) in s.outcomes
    || Failed(job) in s.outcomes
  }

  lemma OutstandingIsToken(s: Sys, m: TM.TM, places: map<Key, Place>, job: Job)
    requires Link(s, m, places) && Outstanding(s, job)
    ensures job.key in m.tokens && m.tokens[job.key].job == job
  {
    if job in s.jobs {
      var i :| 0 <= i < |s.jobs| && s.jobs[i] == job;
      assert JobMatches(m.tokens, s.jobs[i]);
    } else if o :| (o == Committed(job) || o == Failed(job)) && o in s.outcomes {
      var i :| 0 <= i < |s.outcomes| && s.outcomes[i] == o;
      assert OutcomeMatches(m.tokens, s.outcomes[i]);
    } else {
      assert TracksKey(s.workflow, m.tokens, places, job.key);
    }
  }

  lemma {:induction false} HeldOutcomeIsThere(q: seq<JobOutcome>, k: Key, ok: bool) returns (i: nat)
    requires Held(k, InOutcomes(ok)) in HeldOutcomes(q)
    ensures i < |q| && !q[i].Wake? && q[i].job.key == k
  {
    if Held(k, InOutcomes(ok)) in OutcomeHeld(q[0]) {
      i := 0;
    } else {
      var j := HeldOutcomeIsThere(q[1..], k, ok);
      i := j + 1;
    }
  }

  lemma JobIsThere(s: Sys, tokens: Tokens, k: Key, i: nat)
    requires JobsAgree(tokens, s.jobs) && i < |s.jobs| && s.jobs[i].key == k
    ensures k in tokens && Outstanding(s, tokens[k].job)
  {
    assert JobMatches(tokens, s.jobs[i]);
  }

  lemma OutcomeIsThere(s: Sys, tokens: Tokens, k: Key, i: nat)
    requires OutcomesAgree(tokens, s.outcomes) && i < |s.outcomes| && !s.outcomes[i].Wake?
    requires s.outcomes[i].job.key == k
    ensures k in tokens && Outstanding(s, tokens[k].job)
  {
    assert OutcomeMatches(tokens, s.outcomes[i]);
    assert s.outcomes[i] == Committed(tokens[k].job) || s.outcomes[i] == Failed(tokens[k].job);
  }

  lemma TokenIsOutstanding(s: Sys, m: TM.TM, places: map<Key, Place>, k: Key)
    requires Link(s, m, places) && k in m.tokens
    ensures Outstanding(s, m.tokens[k].job)
  {
    var channel := places[k].Where();
    assert Holds(ContentsOf(s)[channel], places, channel);
    assert Held(k, places[k]) in ContentsOf(s)[channel];
    if places[k].InJobs? {
      var i := PlaceHasToken(s, places, k);
      JobIsThere(s, m.tokens, k, i);
    } else if places[k].InOutcomes? {
      var i := HeldOutcomeIsThere(s.outcomes, k, places[k].ok);
      OutcomeIsThere(s, m.tokens, k, i);
    } else {
      assert TracksKey(s.workflow, m.tokens, places, k);
    }
  }

  /** Every key with speculative state has an outstanding job. */
  lemma SpeculativeHasJob(hydrated: map<Key, Status>, s: Sys, k: Key) returns (job: Job)
    requires TP.Hydration(hydrated) && Pipeline.Reachable(hydrated, s) && k in s.coord.speculative
    ensures Outstanding(s, job) && job.key == k
  {
    var m, places := ReachableImplements(hydrated, s);
    assert k in m.tokens.Keys;
    job := m.tokens[k].job;
    TokenIsOutstanding(s, m, places, k);
  }

  /** The ids of a key's confirmed entry, outstanding job and speculative entry form a chain, and there
      is one outstanding job per key. */
  lemma IdChain(hydrated: map<Key, Status>, s: Sys, job: Job, other: Job)
    requires TP.Hydration(hydrated) && Pipeline.Reachable(hydrated, s)
    requires Outstanding(s, job)
    ensures job.key in s.coord.speculative
    ensures TM.ConfirmedId(s.coord, job.key) <= job.id <= s.coord.speculative[job.key].id < s.coord.nextId
    ensures Outstanding(s, other) && other.key == job.key ==> other == job
  {
    var m, places := ReachableImplements(hydrated, s);
    OutstandingIsToken(s, m, places, job);
    TP.JobFactsHold(m, job.key);
    if Outstanding(s, other) {
      OutstandingIsToken(s, m, places, other);
    }
  }

  /** The id occurs with this key and status: confirmed, speculative, or in an outstanding job. */
  ghost predicate Mentions(s: Sys, k: Key, status: Status, id: nat) {
    || (k in s.coord.confirmed && s.coord.confirmed[k] == Entry(status, id))
    || (k in s.coord.speculative && s.coord.speculative[k] == Entry(status, id))
    || exists job :: Outstanding(s, job) && job.key == k && job.status == status && job.id == id
  }

  lemma MentionIsStamped(s: Sys, m: TM.TM, places: map<Key, Place>, k: Key, status: Status, id: nat)
    requires Link(s, m, places) && TM.AllStamped(m) && Mentions(s, k, status, id)
    ensures TM.Stamped(m.hist, k, status, id)
  {
    if job :| Outstanding(s, job) && job.key == k && job.status == status && job.id == id {
      OutstandingIsToken(s, m, places, job);
    }
  }

  /** Key and id determine the status everywhere they occur; an id that was allocated also determines
      the key. */
  lemma IdNamesOneStatus(hydrated: map<Key, Status>, s: Sys, k1: Key, k2: Key, status1: Status, status2: Status,
                         id: nat)
    requires TP.Hydration(hydrated) && Pipeline.Reachable(hydrated, s)
    requires Mentions(s, k1, status1, id) && Mentions(s, k2, status2, id)
    ensures k1 == k2 ==> status1 == status2
    ensures id != HYDRATED_ID ==> k1 == k2
  {
    var m, places := ReachableImplements(hydrated, s);
    MentionIsStamped(s, m, places, k1, status1, id);
    MentionIsStamped(s, m, places, k2, status2, id);
  }

  lemma SettleRaisesId(m: TM.TM, key: Key, k: Key)
    requires TP.JobFacts(m, key) && TM.Enabled(m, TM.Settle(key))
    ensures TM.ConfirmedId(m.coord, k) <= TM.ConfirmedId(TM.Settled(m, key).coord, k)
  {}

  lemma ConfirmedIdRises(m: TM.TM, e: TM.Event, k: Key)
    requires TM.Inv(m) && TM.Enabled(m, e)
    ensures TM.ConfirmedId(m.coord, k) <= TM.ConfirmedId(TM.Step(m, e).coord, k)
  {
    if e.Settle? {
      TP.JobFactsHold(m, e.key);
      SettleRaisesId(m, e.key, k);
    } else {
      assert TM.Step(m, e).coord.confirmed == m.coord.confirmed;
    }
  }

  /** The confirmed id of a key never decreases, over any run from a reachable state. */
  lemma ConfirmedIdNeverDrops(hydrated: map<Key, Status>, s: Sys, actions: seq<Action>, s': Sys, k: Key)
    requires TP.Hydration(hydrated) && Pipeline.Reachable(hydrated, s) && Pipeline.Runs(s, actions, s')
    ensures TM.ConfirmedId(s.coord, k) <= TM.ConfirmedId(s'.coord, k)
  {
    var m, places := ReachableImplements(hydrated, s);
    var m', places', events := RunImplements(s, m, places, actions, s');
    ConfirmedIdOverRun(m, events, m', k);
  }

  lemma {:induction false} ConfirmedIdOverRun(m: TM.TM, events: seq<TM.Event>, m': TM.TM, k: Key)
    requires TM.Inv(m) && TP.Runs(m, events, m')
    ensures TM.ConfirmedId(m.coord, k) <= TM.ConfirmedId(m'.coord, k)
    decreases |events|
  {
    if events != [] {
      ConfirmedIdRises(m, events[0], k);
      TP.StepKeeps(m, events[0]);
      ConfirmedIdOverRun(TM.Step(m, events[0]), events[1..], m', k);
    }
  }
}
