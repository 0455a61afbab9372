/** The pipeline implements the token machine: every step of the channels is either one step of the
    token machine or only moves a token on, and no task ever breaks. */
module Refinement {
  import opened Types
  import opened Keys
  import opened Coordinator
  import opened Messages
  import opened Workflow
  import opened Snooze
  import opened PublishEngine
  import opened Pipeline
  import opened Places
  import Replay
  import TM = TokenMachine
  import TP = TokenProofs

  // ---- The tokens that each channel holds ----

  function HeldJobs(q: seq<Job>): seq<Held> {
    seq(|q|, i requires 0 <= i < |q| => Held(q[i].key, InJobs))
  }

  function HeldSnoozes(q: seq<SnoozeInput>): seq<Held> {
    seq(|q|, i requires 0 <= i < |q| => Held(q[i].key, InSnoozes))
  }

  function HeldReplies(q: seq<SnoozeOutcome>): seq<Held> {
    if q == [] then []
    else (if q[0].Expired? then [] else [Held(q[0].key, InReplies(q[0].Accepted?))]) + HeldReplies(q[1..])
  }

  function HeldPublishes(q: seq<Publish>): seq<Held> {
    seq(|q|, i requires 0 <= i < |q| => Held(q[i].details.key, InPublishes))
  }

  function HeldAttempts(q: seq<PublishAttempt>): seq<Held> {
    seq(|q|, i requires 0 <= i < |q| => Held(q[i].request.details.key, InAttempts(q[i].attemptCount)))
  }

  function HeldBatch(q: seq<PublishResult>): seq<Held> {
    seq(|q|, i requires 0 <= i < |q| => Held(q[i].key, InBatch(q[i].ok)))
  }

  function HeldResults(q: seq<PublishResult>): seq<Held> {
    seq(|q|, i requires 0 <= i < |q| => Held(q[i].key, InResults(q[i].ok)))
  }

  function OutcomeHeld(o: JobOutcome): seq<Held> {
    match o
    case Committed(job) => [Held(job.key, InOutcomes(true))]
    case Failed(job) => [Held(job.key, InOutcomes(false))]
    case Wake(_) => []
  }

  function HeldOutcomes(q: seq<JobOutcome>): seq<Held> {
    if q == [] then [] else OutcomeHeld(q[0]) + HeldOutcomes(q[1..])
  }

  /** The results on their way to the workflow handler, or in its hands, in order. */
  function ResultsUnderWay(s: Sys): seq<PublishResult> {
    s.hand + Flatten(s.publishReplies)
  }

  function ContentsOf(s: Sys): (contents: Contents)
    ensures forall channel: Channel :: channel in contents
  {
    var contents := map[
      JobChannel := HeldJobs(s.jobs),
      SnoozeChannel := HeldSnoozes(s.snoozes),
      ReplyChannel := HeldReplies(s.snoozeReplies),
      PublishChannel := HeldPublishes(s.publishes),
      AttemptPool := HeldAttempts(s.engine.inFlight),
      BatchBuffer := HeldBatch(s.engine.completedBatch),
      ResultChannel := HeldResults(ResultsUnderWay(s)),
      OutcomeChannel := HeldOutcomes(s.outcomes)];
    EveryChannel(contents);
    contents
  }

  lemma {:induction false} HeldRepliesAppend(q: seq<SnoozeOutcome>, r: seq<SnoozeOutcome>)
    ensures HeldReplies(q + r) == HeldReplies(q) + HeldReplies(r)
  {
    if q == [] {
      assert q + r == r;
    } else {
      assert (q + r)[1..] == q[1..] + r;
      HeldRepliesAppend(q[1..], r);
    }
  }

  lemma {:induction false} HeldOutcomesAppend(q: seq<JobOutcome>, r: seq<JobOutcome>)
    ensures HeldOutcomes(q + r) == HeldOutcomes(q) + HeldOutcomes(r)
  {
    if q == [] {
      assert q + r == r;
    } else {
      assert (q + r)[1..] == q[1..] + r;
      HeldOutcomesAppend(q[1..], r);
    }
  }

  /** One more message at the end of the outcome queue. */
  lemma PushOutcome(q: seq<JobOutcome>, o: JobOutcome)
    ensures HeldOutcomes(q + [o]) == HeldOutcomes(q) + OutcomeHeld(o)
    ensures Wakes(q + [o]) == Wakes(q) + (if o.Wake? then multiset{o.key} else multiset{})
  {
    HeldOutcomesAppend(q, [o]);
    WakesAppend(q, [o]);
    assert [o][1..] == [];
  }

  /** One more message at the end of the snooze reply queue. */
  lemma PushReply(q: seq<SnoozeOutcome>, r: SnoozeOutcome)
    ensures HeldReplies(q + [r]) ==
            HeldReplies(q) + (if r.Expired? then [] else [Held(r.key, InReplies(r.Accepted?))])
    ensures Expiries(q + [r]) == Expiries(q) + (if r.Expired? then multiset{r.key} else multiset{})
  {
    HeldRepliesAppend(q, [r]);
    ExpiriesAppend(q, [r]);
    assert [r][1..] == [];
  }

  // ---- How far a place is, and what the workflow handler tracks for it ----

  function PhaseOf(place: Place): TM.Phase {
    match place
    case InJobs => TM.Dispatched
    case InSnoozes => TM.Dispatched
    case InReplies(accepted) => if accepted then TM.Armed else TM.Finished(false)
    case InPublishes => TM.Armed
    case InAttempts(_) => TM.Armed
    case InBatch(ok) => TM.Finished(ok)
    case InResults(ok) => TM.Finished(ok)
    case InOutcomes(ok) => TM.Finished(ok)
  }

  predicate IsTracked(place: Place) {
    !place.InJobs? && !place.InOutcomes?
  }

  function StepOf(place: Place): nat {
    if place.InSnoozes? || place.InReplies? then 1 else 2
  }

  type Tokens = map<Key, TM.Token>

  ghost predicate Located(tokens: Tokens, places: map<Key, Place>) {
    && places.Keys == tokens.Keys
    && (forall k :: k in places ==> tokens[k].phase == PhaseOf(places[k]))
    && (forall k :: k in places ==> tokens[k].job.key == k)
    && (forall k :: k in places && places[k].InAttempts? ==> 1 <= places[k].count <= MAX_DELIVERY_ATTEMPTS)
  }

  ghost predicate TracksKey(workflow: Workflow.Jobs, tokens: Tokens, places: map<Key, Place>, k: Key) {
    if k in places && k in tokens && IsTracked(places[k])
    then k in workflow && workflow[k] == Tracked(tokens[k].job, StepOf(places[k]))
    else k !in workflow
  }

  ghost predicate Tracks(workflow: Workflow.Jobs, tokens: Tokens, places: map<Key, Place>) {
    forall k :: TracksKey(workflow, tokens, places, k)
  }

  // ---- What the messages say agrees with the tokens ----

  predicate JobMatches(tokens: Tokens, job: Job) {
    job.key in tokens && tokens[job.key].job == job
  }

  predicate SnoozeMatches(tokens: Tokens, input: SnoozeInput) {
    input.key in tokens && input.wake == tokens[input.key].job.status.wake
  }

  predicate PublishMatches(tokens: Tokens, publish: Publish) {
    publish.details.key in tokens && publish == PublishFor(tokens[publish.details.key].job)
  }

  predicate OutcomeMatches(tokens: Tokens, outcome: JobOutcome) {
    outcome.Wake? || JobMatches(tokens, outcome.job)
  }

  ghost predicate JobsAgree(tokens: Tokens, q: seq<Job>) {
    forall i :: 0 <= i < |q| ==> JobMatches(tokens, q[i])
  }

  ghost predicate SnoozesAgree(tokens: Tokens, q: seq<SnoozeInput>) {
    forall i :: 0 <= i < |q| ==> SnoozeMatches(tokens, q[i])
  }

  ghost predicate PublishesAgree(tokens: Tokens, q: seq<Publish>) {
    forall i :: 0 <= i < |q| ==> PublishMatches(tokens, q[i])
  }

  ghost predicate AttemptsAgree(tokens: Tokens, q: seq<PublishAttempt>) {
    forall i :: 0 <= i < |q| ==> PublishMatches(tokens, q[i].request)
  }

  ghost predicate OutcomesAgree(tokens: Tokens, q: seq<JobOutcome>) {
    forall i :: 0 <= i < |q| ==> OutcomeMatches(tokens, q[i])
  }

  ghost predicate Agrees(s: Sys, tokens: Tokens) {
    && JobsAgree(tokens, s.jobs)
    && SnoozesAgree(tokens, s.snoozes)
    && PublishesAgree(tokens, s.publishes)
    && AttemptsAgree(tokens, s.engine.inFlight)
    && OutcomesAgree(tokens, s.outcomes)
  }

  ghost predicate Link(s: Sys, m: TM.TM, places: map<Key, Place>) {
    && !s.broken
    && s.coord == m.coord && s.timers == m.timers && s.log == m.log
    && WakesUnderWay(s) == m.wakes
    && Located(m.tokens, places)
    && Tracks(s.workflow, m.tokens, places)
    && AllHold(ContentsOf(s), places)
    && Agrees(s, m.tokens)
  }

  /** The step of the token machine that an action amounts to; none for one that only passes on. */
  function Meaning(s: Sys, a: Action): Option<TM.Event>
    requires Pipeline.Enabled(s, a)
  {
    match a
    case TakeInput(status) => Some(TM.Input(status))
    case TakeCommand(key, action, user, caller, now) => Some(TM.Command(key, action, user, caller, now))
    case TakeOutcome(now) =>
      (match s.outcomes[0]
       case Wake(key) => Some(TM.WakeUp(key, now))
       case Committed(job) => Some(TM.Settle(job.key))
       case Failed(job) => Some(TM.Settle(job.key)))
    case TakeSnooze(clock) => Some(TM.Arm(s.snoozes[0].key, clock))
    case Expire(key) => Some(TM.Fire(key))
    case Finish(i, ok, appended) =>
      var attempt := s.engine.inFlight[i];
      Some(TM.Attempt(attempt.request.details.key, ok, appended, !Retries(attempt, ok)))
    case _ => None
  }

  function After(m: TM.TM, e: Option<TM.Event>): TM.TM
    requires e.Some? ==> TM.Enabled(m, e.value)
  {
    if e.Some? then TM.Step(m, e.value) else m
  }

  // ---- Frames ----

  /** The jobs of `tokens` are also those of `tokens'`. */
  ghost predicate SameJobs(tokens: Tokens, tokens': Tokens) {
    forall k :: k in tokens ==> k in tokens' && tokens'[k].job == tokens[k].job
  }

  lemma AgreesStill(s: Sys, tokens: Tokens, tokens': Tokens)
    requires Agrees(s, tokens) && SameJobs(tokens, tokens')
    ensures Agrees(s, tokens')
  {}

  /** Only what is tracked or placed for `k` has changed. */
  lemma TracksBut(workflow: Workflow.Jobs, workflow': Workflow.Jobs, tokens: Tokens, tokens': Tokens,
                  places: map<Key, Place>, places': map<Key, Place>, k: Key)
    requires Tracks(workflow, tokens, places)
    requires workflow' - {k} == workflow - {k} && tokens' - {k} == tokens - {k} && places' - {k} == places - {k}
    requires TracksKey(workflow', tokens', places', k)
    ensures Tracks(workflow', tokens', places')
  {
    forall x
      ensures TracksKey(workflow', tokens', places', x)
    {
      if x != k {
        assert TracksKey(workflow, tokens, places, x);
        assert x in workflow' - {k} <==> x in workflow';
        assert x in workflow - {k} <==> x in workflow;
        assert x in tokens' - {k} <==> x in tokens';
        assert x in tokens - {k} <==> x in tokens;
        assert x in places' - {k} <==> x in places';
        assert x in places - {k} <==> x in places;
      }
    }
  }

  /** A token that is passed on without any decision. */
  ghost predicate PassesOn(s: Sys, s': Sys, m: TM.TM, places: map<Key, Place>, from: Channel, i: nat, place: Place) {
    && i < |ContentsOf(s)[from]|
    && var k := ContentsOf(s)[from][i].key;
       && ContentsOf(s') == Added(Removed(ContentsOf(s), from, i), k, place)
       && k in places && PhaseOf(place) == PhaseOf(places[k])
       && s'.coord == s.coord && s'.timers == s.timers && s'.log == s.log && !s'.broken
       && WakesUnderWay(s') == WakesUnderWay(s)
       && s'.workflow - {k} == s.workflow - {k}
       && TracksKey(s'.workflow, m.tokens, places[k := place], k)
       && (place.InAttempts? ==> 1 <= place.count <= MAX_DELIVERY_ATTEMPTS)
  }

  lemma PassOnLinks(s: Sys, s': Sys, m: TM.TM, places: map<Key, Place>, from: Channel, i: nat, place: Place)
    requires Link(s, m, places) && PassesOn(s, s', m, places, from, i, place) && Agrees(s', m.tokens)
    ensures Link(s', m, places[ContentsOf(s)[from][i].key := place])
  {
    Places.MoveKeeps(ContentsOf(s), places, from, i, place);
    PassOnTracks(s, s', m, places, from, i, place);
  }

  lemma PassOnTracks(s: Sys, s': Sys, m: TM.TM, places: map<Key, Place>, from: Channel, i: nat, place: Place)
    requires PassesOn(s, s', m, places, from, i, place)
    requires Located(m.tokens, places) && Tracks(s.workflow, m.tokens, places)
    ensures var places' := places[ContentsOf(s)[from][i].key := place];
            Located(m.tokens, places') && Tracks(s'.workflow, m.tokens, places')
  {
    var k := ContentsOf(s)[from][i].key;
    TracksBut(s.workflow, s'.workflow, m.tokens, m.tokens, places, places[k := place], k);
  }

  // ---- The workflow handler ----

  /** The token at position `i` of a channel is the one of key `k`, at `place`. */
  ghost predicate Finds(s: Sys, m: TM.TM, places: map<Key, Place>, channel: Channel, i: nat, k: Key, place: Place) {
    && i < |ContentsOf(s)[channel]|
    && ContentsOf(s)[channel][i] == Held(k, place)
    && k in places && places[k] == place && place.Where() == channel
    && k in m.tokens && m.tokens[k].phase == PhaseOf(place) && m.tokens[k].job.key == k
    && TracksKey(s.workflow, m.tokens, places, k)
  }

  lemma Found(s: Sys, m: TM.TM, places: map<Key, Place>, channel: Channel, i: nat)
    requires Link(s, m, places) && i < |ContentsOf(s)[channel]|
    ensures var h := ContentsOf(s)[channel][i];
            Finds(s, m, places, channel, i, h.key, h.place)
  {
    assert Holds(ContentsOf(s)[channel], places, channel);
  }

  lemma TakeJobShape(s: Sys)
    requires Pipeline.Enabled(s, TakeJob)
    ensures var job := s.jobs[0];
            Pipeline.Step(s, TakeJob) ==
            s.(jobs := s.jobs[1..], workflow := s.workflow[job.key := Tracked(job, 1)],
            snoozes := s.snoozes + [SnoozeInput(job.key, job.status.wake)])
  {
    var job := s.jobs[0];
    assert OnJob(s.workflow, job).jobs == s.workflow[job.key := Tracked(job, 1)];
    assert s.publishes + [] == s.publishes && s.outcomes + [] == s.outcomes;
  }

  lemma TakeJobContents(s: Sys, s': Sys, job: Job)
    requires s.jobs != [] && job == s.jobs[0]
    requires s' == s.(jobs := s.jobs[1..], workflow := s'.workflow,
                   snoozes := s.snoozes + [SnoozeInput(job.key, job.status.wake)])
    ensures ContentsOf(s') == Added(Removed(ContentsOf(s), JobChannel, 0), job.key, InSnoozes)
    ensures ContentsOf(s)[JobChannel][0] == Held(job.key, InJobs)
  {
    assert HeldJobs(s'.jobs) == Places.Without(HeldJobs(s.jobs), 0);
    assert HeldSnoozes(s'.snoozes) == HeldSnoozes(s.snoozes) + [Held(job.key, InSnoozes)];
  }

  lemma TakeJobPasses(s: Sys, m: TM.TM, places: map<Key, Place>)
    requires Pipeline.Enabled(s, TakeJob) && JobMatches(m.tokens, s.jobs[0])
    requires Finds(s, m, places, JobChannel, 0, s.jobs[0].key, InJobs)
    ensures PassesOn(s, Pipeline.Step(s, TakeJob), m, places, JobChannel, 0, InSnoozes)
  {
    TakeJobShape(s);
    TakeJobContents(s, Pipeline.Step(s, TakeJob), s.jobs[0]);
  }

  lemma TakeJobAgrees(s: Sys, tokens: Tokens)
    requires Agrees(s, tokens) && Pipeline.Enabled(s, TakeJob)
    ensures Agrees(Pipeline.Step(s, TakeJob), tokens)
  {
    TakeJobShape(s);
    assert JobMatches(tokens, s.jobs[0]);
  }

  lemma TakeJobLinks(s: Sys, m: TM.TM, places: map<Key, Place>)
    requires Link(s, m, places) && Pipeline.Enabled(s, TakeJob)
    ensures Link(Pipeline.Step(s, TakeJob), m, places[s.jobs[0].key := InSnoozes])
  {
    Found(s, m, places, JobChannel, 0);
    assert JobMatches(m.tokens, s.jobs[0]);
    TakeJobPasses(s, m, places);
    TakeJobAgrees(s, m.tokens);
    PassOnLinks(s, Pipeline.Step(s, TakeJob), m, places, JobChannel, 0, InSnoozes);
  }

  lemma TakeReplyShape(s: Sys, key: Key)
    requires Pipeline.Enabled(s, TakeSnoozeReply) && s.snoozeReplies[0] == Accepted(key)
    requires key in s.workflow && s.workflow[key].step == 1
    ensures var job := s.workflow[key].job;
            Pipeline.Step(s, TakeSnoozeReply) ==
            s.(snoozeReplies := s.snoozeReplies[1..], workflow := s.workflow[key := Tracked(job, 2)],
            publishes := s.publishes + [PublishFor(job)])
  {
    assert s.snoozes + [] == s.snoozes && s.outcomes + [] == s.outcomes;
  }

  lemma TakeReplyContents(s: Sys, s': Sys, key: Key, publish: Publish)
    requires s.snoozeReplies != [] && s.snoozeReplies[0] == Accepted(key) && publish.details.key == key
    requires s' == s.(snoozeReplies := s.snoozeReplies[1..], workflow := s'.workflow,
                   publishes := s.publishes + [publish])
    ensures ContentsOf(s') == Added(Removed(ContentsOf(s), ReplyChannel, 0), key, InPublishes)
    ensures ContentsOf(s)[ReplyChannel][0] == Held(key, InReplies(true))
  {
    assert HeldReplies(s'.snoozeReplies) == Places.Without(HeldReplies(s.snoozeReplies), 0);
    assert HeldPublishes(s'.publishes) == HeldPublishes(s.publishes) + [Held(key, InPublishes)];
  }

  lemma TakeReplyPasses(s: Sys, m: TM.TM, places: map<Key, Place>, key: Key)
    requires Pipeline.Enabled(s, TakeSnoozeReply) && s.snoozeReplies[0] == Accepted(key)
    requires Finds(s, m, places, ReplyChannel, 0, key, InReplies(true))
    ensures PassesOn(s, Pipeline.Step(s, TakeSnoozeReply), m, places, ReplyChannel, 0, InPublishes)
    ensures Agrees(s, m.tokens) ==> Agrees(Pipeline.Step(s, TakeSnoozeReply), m.tokens)
  {
    TakeReplyShape(s, key);
    TakeReplyContents(s, Pipeline.Step(s, TakeSnoozeReply), key, PublishFor(s.workflow[key].job));
  }

  lemma TakeReplyLinks(s: Sys, m: TM.TM, places: map<Key, Place>, key: Key)
    requires Link(s, m, places) && Pipeline.Enabled(s, TakeSnoozeReply) && s.snoozeReplies[0] == Accepted(key)
    ensures Link(Pipeline.Step(s, TakeSnoozeReply), m, places[key := InPublishes])
  {
    assert ContentsOf(s)[ReplyChannel][0] == Held(key, InReplies(true));
    Found(s, m, places, ReplyChannel, 0);
    TakeReplyPasses(s, m, places, key);
    PassOnLinks(s, Pipeline.Step(s, TakeSnoozeReply), m, places, ReplyChannel, 0, InPublishes);
  }

  lemma TakeInvalidShape(s: Sys, key: Key)
    requires Pipeline.Enabled(s, TakeSnoozeReply) && s.snoozeReplies[0] == InvalidWake(key)
    requires key in s.workflow
    ensures Pipeline.Step(s, TakeSnoozeReply) ==
            s.(snoozeReplies := s.snoozeReplies[1..], workflow := s.workflow - {key},
            outcomes := s.outcomes + [Failed(s.workflow[key].job)])
  {
    assert s.snoozes + [] == s.snoozes && s.publishes + [] == s.publishes;
  }

  lemma TakeInvalidContents(s: Sys, s': Sys, job: Job)
    requires s.snoozeReplies != [] && s.snoozeReplies[0] == InvalidWake(job.key)
    requires s' == s.(snoozeReplies := s.snoozeReplies[1..], workflow := s'.workflow,
                   outcomes := s.outcomes + [Failed(job)])
    ensures ContentsOf(s') == Added(Removed(ContentsOf(s), ReplyChannel, 0), job.key, InOutcomes(false))
    ensures ContentsOf(s)[ReplyChannel][0] == Held(job.key, InReplies(false))
    ensures WakesUnderWay(s') == WakesUnderWay(s)
  {
    assert HeldReplies(s'.snoozeReplies) == Places.Without(HeldReplies(s.snoozeReplies), 0);
    PushOutcome(s.outcomes, Failed(job));
  }

  lemma TakeInvalidPasses(s: Sys, m: TM.TM, places: map<Key, Place>, key: Key)
    requires Pipeline.Enabled(s, TakeSnoozeReply) && s.snoozeReplies[0] == InvalidWake(key)
    requires Finds(s, m, places, ReplyChannel, 0, key, InReplies(false))
    ensures PassesOn(s, Pipeline.Step(s, TakeSnoozeReply), m, places, ReplyChannel, 0, InOutcomes(false))
    ensures Agrees(s, m.tokens) ==> Agrees(Pipeline.Step(s, TakeSnoozeReply), m.tokens)
  {
    TakeInvalidShape(s, key);
    TakeInvalidContents(s, Pipeline.Step(s, TakeSnoozeReply), s.workflow[key].job);
  }

  lemma TakeInvalidLinks(s: Sys, m: TM.TM, places: map<Key, Place>, key: Key)
    requires Link(s, m, places) && Pipeline.Enabled(s, TakeSnoozeReply) && s.snoozeReplies[0] == InvalidWake(key)
    ensures Link(Pipeline.Step(s, TakeSnoozeReply), m, places[key := InOutcomes(false)])
  {
    assert ContentsOf(s)[ReplyChannel][0] == Held(key, InReplies(false));
    Found(s, m, places, ReplyChannel, 0);
    TakeInvalidPasses(s, m, places, key);
    PassOnLinks(s, Pipeline.Step(s, TakeSnoozeReply), m, places, ReplyChannel, 0, InOutcomes(false));
  }

  lemma TakeExpiryShape(s: Sys, key: Key)
    requires Pipeline.Enabled(s, TakeSnoozeReply) && s.snoozeReplies[0] == Expired(key)
    ensures Pipeline.Step(s, TakeSnoozeReply) ==
            s.(snoozeReplies := s.snoozeReplies[1..], outcomes := s.outcomes + [Wake(key)])
  {
    assert s.snoozes + [] == s.snoozes && s.publishes + [] == s.publishes;
  }

  lemma TakeExpiryContents(s: Sys, s': Sys, key: Key)
    requires s.snoozeReplies != [] && s.snoozeReplies[0] == Expired(key)
    requires s' == s.(snoozeReplies := s.snoozeReplies[1..], outcomes := s.outcomes + [Wake(key)])
    ensures ContentsOf(s') == ContentsOf(s) && WakesUnderWay(s') == WakesUnderWay(s)
  {
    PushOutcome(s.outcomes, Wake(key));
    assert HeldReplies(s'.snoozeReplies) == HeldReplies(s.snoozeReplies);
    assert HeldOutcomes(s'.outcomes) == HeldOutcomes(s.outcomes);
  }

  /** An expiry turns into a wake; no token is involved. */
  lemma TakeExpiryLinks(s: Sys, m: TM.TM, places: map<Key, Place>, key: Key)
    requires Link(s, m, places) && Pipeline.Enabled(s, TakeSnoozeReply) && s.snoozeReplies[0] == Expired(key)
    ensures Link(Pipeline.Step(s, TakeSnoozeReply), m, places)
  {
    TakeExpiryShape(s, key);
    TakeExpiryContents(s, Pipeline.Step(s, TakeSnoozeReply), key);
  }

  lemma TakePublishReplyLinks(s: Sys, m: TM.TM, places: map<Key, Place>)
    requires Link(s, m, places) && Pipeline.Enabled(s, TakePublishReply)
    ensures Link(Pipeline.Step(s, TakePublishReply), m, places)
  {
    var s' := Pipeline.Step(s, TakePublishReply);
    assert ResultsUnderWay(s') == ResultsUnderWay(s);
    assert ContentsOf(s') == ContentsOf(s);
  }

  lemma TakeResultShape(s: Sys)
    requires Pipeline.Enabled(s, TakeResult) && s.hand[0].key in s.workflow
    ensures var job := s.workflow[s.hand[0].key].job;
            Pipeline.Step(s, TakeResult) ==
            s.(hand := s.hand[1..], workflow := s.workflow - {s.hand[0].key},
            outcomes := s.outcomes + [if s.hand[0].ok then Committed(job) else Failed(job)])
  {
    assert s.snoozes + [] == s.snoozes && s.publishes + [] == s.publishes;
  }

  lemma TakeResultContents(s: Sys, s': Sys, job: Job, ok: bool)
    requires s.hand != [] && s.hand[0] == PublishResult(job.key, ok)
    requires s' == s.(hand := s.hand[1..], workflow := s'.workflow,
                   outcomes := s.outcomes + [if ok then Committed(job) else Failed(job)])
    ensures ContentsOf(s') == Added(Removed(ContentsOf(s), ResultChannel, 0), job.key, InOutcomes(ok))
    ensures ContentsOf(s)[ResultChannel][0] == Held(job.key, InResults(ok))
    ensures WakesUnderWay(s') == WakesUnderWay(s)
  {
    assert HeldResults(ResultsUnderWay(s')) == Places.Without(HeldResults(ResultsUnderWay(s)), 0);
    PushOutcome(s.outcomes, if ok then Committed(job) else Failed(job));
  }

  lemma TakeResultPasses(s: Sys, m: TM.TM, places: map<Key, Place>, key: Key, ok: bool)
    requires Pipeline.Enabled(s, TakeResult) && s.hand[0] == PublishResult(key, ok)
    requires Finds(s, m, places, ResultChannel, 0, key, InResults(ok))
    ensures PassesOn(s, Pipeline.Step(s, TakeResult), m, places, ResultChannel, 0, InOutcomes(ok))
    ensures Agrees(s, m.tokens) ==> Agrees(Pipeline.Step(s, TakeResult), m.tokens)
  {
    TakeResultShape(s);
    TakeResultContents(s, Pipeline.Step(s, TakeResult), s.workflow[key].job, ok);
  }

  lemma TakeResultLinks(s: Sys, m: TM.TM, places: map<Key, Place>, key: Key, ok: bool)
    requires Link(s, m, places) && Pipeline.Enabled(s, TakeResult) && s.hand[0] == PublishResult(key, ok)
    ensures Link(Pipeline.Step(s, TakeResult), m, places[key := InOutcomes(ok)])
  {
    assert ResultsUnderWay(s)[0] == s.hand[0];
    assert ContentsOf(s)[ResultChannel][0] == Held(key, InResults(ok));
    Found(s, m, places, ResultChannel, 0);
    TakeResultPasses(s, m, places, key, ok);
    PassOnLinks(s, Pipeline.Step(s, TakeResult), m, places, ResultChannel, 0, InOutcomes(ok));
  }

  // ---- The publish engine ----

  lemma TakePublishContents(s: Sys, key: Key)
    requires Pipeline.Enabled(s, TakePublish) && s.publishes[0].details.key == key
    ensures ContentsOf(Pipeline.Step(s, TakePublish)) ==
            Added(Removed(ContentsOf(s), PublishChannel, 0), key, InAttempts(1))
    ensures ContentsOf(s)[PublishChannel][0] == Held(key, InPublishes)
  {
    var s' := Pipeline.Step(s, TakePublish);
    assert HeldPublishes(s'.publishes) == Places.Without(HeldPublishes(s.publishes), 0);
    assert HeldAttempts(s'.engine.inFlight) == HeldAttempts(s.engine.inFlight) + [Held(key, InAttempts(1))];
  }

  lemma TakePublishPasses(s: Sys, m: TM.TM, places: map<Key, Place>, key: Key)
    requires Pipeline.Enabled(s, TakePublish) && s.publishes[0].details.key == key
    requires Finds(s, m, places, PublishChannel, 0, key, InPublishes)
    ensures PassesOn(s, Pipeline.Step(s, TakePublish), m, places, PublishChannel, 0, InAttempts(1))
    ensures Agrees(s, m.tokens) ==> Agrees(Pipeline.Step(s, TakePublish), m.tokens)
  {
    TakePublishContents(s, key);
  }

  lemma TakePublishLinks(s: Sys, m: TM.TM, places: map<Key, Place>, key: Key)
    requires Link(s, m, places) && Pipeline.Enabled(s, TakePublish) && s.publishes[0].details.key == key
    ensures Link(Pipeline.Step(s, TakePublish), m, places[key := InAttempts(1)])
  {
    assert Finds(s, m, places, PublishChannel, 0, key, InPublishes) by {
      TakePublishContents(s, key);
      Found(s, m, places, PublishChannel, 0);
    }
    TakePublishPasses(s, m, places, key);
    PassOnLinks(s, Pipeline.Step(s, TakePublish), m, places, PublishChannel, 0, InAttempts(1));
  }

  lemma FlushContents(s: Sys, s': Sys)
    requires s' == s.(engine := s.engine.(completedBatch := []),
                   publishReplies := s.publishReplies + [PublishOutcome.Batch(s.engine.completedBatch)])
    ensures ContentsOf(s') ==
            var C := ContentsOf(s);
            C[ResultChannel := C[ResultChannel] + Places.Reported(C[BatchBuffer])][BatchBuffer := []]
  {
    FlushResultsUnderWay(s, s');
    HeldResultsFlushed(ResultsUnderWay(s), s.engine.completedBatch);
  }

  lemma FlushResultsUnderWay(s: Sys, s': Sys)
    requires s' == s.(engine := s.engine.(completedBatch := []),
                   publishReplies := s.publishReplies + [PublishOutcome.Batch(s.engine.completedBatch)])
    ensures ResultsUnderWay(s') == ResultsUnderWay(s) + s.engine.completedBatch
  {
    FlattenAppend(s.publishReplies, [PublishOutcome.Batch(s.engine.completedBatch)]);
    assert Flatten([PublishOutcome.Batch(s.engine.completedBatch)]) == s.engine.completedBatch;
  }

  lemma HeldResultsFlushed(results: seq<PublishResult>, batch: seq<PublishResult>)
    ensures HeldResults(results + batch) == HeldResults(results) + Places.Reported(HeldBatch(batch))
  {}

  lemma FlushTracks(workflow: Workflow.Jobs, tokens: Tokens, places: map<Key, Place>)
    requires Located(tokens, places) && Tracks(workflow, tokens, places)
    ensures Located(tokens, Places.Flushed(places)) && Tracks(workflow, tokens, Places.Flushed(places))
  {
    forall k
      ensures TracksKey(workflow, tokens, Places.Flushed(places), k)
    {
      assert TracksKey(workflow, tokens, places, k);
    }
  }

  lemma FlushLinks(s: Sys, s': Sys, m: TM.TM, places: map<Key, Place>)
    requires Link(s, m, places)
    requires s' == s.(engine := s.engine.(completedBatch := []),
                   publishReplies := s.publishReplies + [PublishOutcome.Batch(s.engine.completedBatch)])
    ensures Link(s', m, Places.Flushed(places))
  {
    FlushContents(s, s');
    FlushKeeps(ContentsOf(s), places);
    FlushTracks(s.workflow, m.tokens, places);
  }

  // ---- Steps that decide something about a token ----

  /** The token of `k` moves to `place`, its phase moving along in the token machine. */
  ghost predicate Moves(s: Sys, s': Sys, m: TM.TM, m': TM.TM, places: map<Key, Place>, from: Channel, i: nat,
                        place: Place) {
    && i < |ContentsOf(s)[from]|
    && var k := ContentsOf(s)[from][i].key;
       && ContentsOf(s') == Added(Removed(ContentsOf(s), from, i), k, place)
       && k in places && k in m.tokens && m.tokens[k].job.key == k
       && m'.tokens == m.tokens[k := TM.Token(m.tokens[k].job, PhaseOf(place))]
       && s'.coord == m'.coord && s'.timers == m'.timers && s'.log == m'.log && !s'.broken
       && WakesUnderWay(s') == m'.wakes
       && s'.workflow == s.workflow
       && IsTracked(places[k]) && IsTracked(place) && StepOf(places[k]) == StepOf(place)
       && (place.InAttempts? ==> 1 <= place.count <= MAX_DELIVERY_ATTEMPTS)
  }

  lemma MoveLocated(tokens: Tokens, tokens': Tokens, places: map<Key, Place>, k: Key, place: Place)
    requires Located(tokens, places) && k in places
    requires tokens' == tokens[k := TM.Token(tokens[k].job, PhaseOf(place))]
    requires place.InAttempts? ==> 1 <= place.count <= MAX_DELIVERY_ATTEMPTS
    ensures Located(tokens', places[k := place])
    ensures SameJobs(tokens, tokens')
  {}

  lemma MoveTracks(workflow: Workflow.Jobs, tokens: Tokens, tokens': Tokens, places: map<Key, Place>, k: Key,
                   place: Place)
    requires Tracks(workflow, tokens, places) && k in places && k in tokens
    requires tokens' == tokens[k := TM.Token(tokens[k].job, PhaseOf(place))]
    requires IsTracked(places[k]) && IsTracked(place) && StepOf(places[k]) == StepOf(place)
    ensures Tracks(workflow, tokens', places[k := place])
  {
    assert TracksKey(workflow, tokens, places, k);
    TracksBut(workflow, workflow, tokens, tokens', places, places[k := place], k);
  }

  lemma MoveLinks(s: Sys, s': Sys, m: TM.TM, m': TM.TM, places: map<Key, Place>, from: Channel, i: nat, place: Place)
    requires Link(s, m, places) && Moves(s, s', m, m', places, from, i, place) && Agrees(s', m.tokens)
    ensures Link(s', m', places[ContentsOf(s)[from][i].key := place])
  {
    var k := ContentsOf(s)[from][i].key;
    Places.MoveKeeps(ContentsOf(s), places, from, i, place);
    MoveLocated(m.tokens, m'.tokens, places, k, place);
    MoveTracks(s.workflow, m.tokens, m'.tokens, places, k, place);
    AgreesStill(s', m.tokens, m'.tokens);
  }

  // ---- The snooze scheduler ----

  lemma TakeSnoozeContents(s: Sys, s': Sys, key: Key, outcome: SnoozeOutcome)
    requires s.snoozes != [] && s.snoozes[0].key == key && outcome.key == key && !outcome.Expired?
    requires s' == s.(snoozes := s.snoozes[1..], timers := s'.timers, snoozeReplies := s.snoozeReplies + [outcome])
    ensures ContentsOf(s') == Added(Removed(ContentsOf(s), SnoozeChannel, 0), key, InReplies(outcome.Accepted?))
    ensures ContentsOf(s)[SnoozeChannel][0] == Held(key, InSnoozes)
    ensures WakesUnderWay(s') == WakesUnderWay(s)
  {
    assert HeldSnoozes(s'.snoozes) == Places.Without(HeldSnoozes(s.snoozes), 0);
    PushReply(s.snoozeReplies, outcome);
  }

  lemma TakeSnoozeMoves(s: Sys, m: TM.TM, places: map<Key, Place>, clock: Clock, key: Key)
    requires Pipeline.Enabled(s, TakeSnooze(clock)) && s.snoozes[0].key == key
    requires s.coord == m.coord && s.timers == m.timers && s.log == m.log && WakesUnderWay(s) == m.wakes
    requires Finds(s, m, places, SnoozeChannel, 0, key, InSnoozes) && SnoozeMatches(m.tokens, s.snoozes[0])
    ensures TM.Enabled(m, TM.Arm(key, clock))
    ensures var place := InReplies(OnInput(s.timers, s.snoozes[0], clock).outcome.Accepted?);
            Moves(s, Pipeline.Step(s, TakeSnooze(clock)), m, TM.AfterArm(m, key, clock), places, SnoozeChannel, 0,
                  place)
    ensures Agrees(s, m.tokens) ==> Agrees(Pipeline.Step(s, TakeSnooze(clock)), m.tokens)
  {
    CommandEffect(s.timers, s.snoozes[0], clock);
    assert s.snoozes[0] == SnoozeInput(key, m.tokens[key].job.status.wake);
    TakeSnoozeContents(s, Pipeline.Step(s, TakeSnooze(clock)), key, OnInput(s.timers, s.snoozes[0], clock).outcome);
  }

  lemma TakeSnoozeLinks(s: Sys, m: TM.TM, places: map<Key, Place>, clock: Clock) returns (places': map<Key, Place>)
    requires Link(s, m, places) && Pipeline.Enabled(s, TakeSnooze(clock))
    ensures TM.Enabled(m, TM.Arm(s.snoozes[0].key, clock))
    ensures Link(Pipeline.Step(s, TakeSnooze(clock)), TM.Step(m, TM.Arm(s.snoozes[0].key, clock)), places')
  {
    var key := s.snoozes[0].key;
    var place := InReplies(OnInput(s.timers, s.snoozes[0], clock).outcome.Accepted?);
    assert Finds(s, m, places, SnoozeChannel, 0, key, InSnoozes) by {
      assert ContentsOf(s)[SnoozeChannel][0] == Held(key, InSnoozes);
      Found(s, m, places, SnoozeChannel, 0);
    }
    assert SnoozeMatches(m.tokens, s.snoozes[0]);
    TakeSnoozeMoves(s, m, places, clock, key);
    assert Agrees(Pipeline.Step(s, TakeSnooze(clock)), m.tokens);
    MoveLinks(s, Pipeline.Step(s, TakeSnooze(clock)), m, TM.AfterArm(m, key, clock), places, SnoozeChannel, 0, place);
    places' := places[key := place];
  }

  lemma ExpireContents(s: Sys, key: Key)
    requires Pipeline.Enabled(s, Expire(key))
    ensures var s' := Pipeline.Step(s, Expire(key));
            ContentsOf(s') == ContentsOf(s) && WakesUnderWay(s') == WakesUnderWay(s) + multiset{key}
  {
    PushReply(s.snoozeReplies, Expired(key));
    assert HeldReplies(s.snoozeReplies + [Expired(key)]) == HeldReplies(s.snoozeReplies);
  }

  lemma ExpireLinks(s: Sys, m: TM.TM, places: map<Key, Place>, key: Key)
    requires Link(s, m, places) && Pipeline.Enabled(s, Expire(key))
    ensures Link(Pipeline.Step(s, Expire(key)), TM.Step(m, TM.Fire(key)), places)
  {
    ExpireContents(s, key);
  }

  // ---- Attempts ----

  lemma RetryContents(s: Sys, s': Sys, i: nat, attempt: PublishAttempt)
    requires i < |s.engine.inFlight| && s.engine.inFlight[i] == attempt && attempt.attemptCount < MAX_DELIVERY_ATTEMPTS
    requires s' == s.(log := s'.log, engine := s.engine.(
                   inFlight := PublishEngine.Without(s.engine.inFlight, i) + [attempt.Incremented()]))
    ensures ContentsOf(s') == Added(Removed(ContentsOf(s), AttemptPool, i), attempt.request.details.key,
                                    InAttempts(attempt.attemptCount + 1))
  {
    assert HeldAttempts(PublishEngine.Without(s.engine.inFlight, i)) ==
           Places.Without(HeldAttempts(s.engine.inFlight), i);
    assert HeldAttempts(s'.engine.inFlight) ==
           Places.Without(HeldAttempts(s.engine.inFlight), i)
           + [Held(attempt.request.details.key, InAttempts(attempt.attemptCount + 1))];
  }

  lemma SingleContents(s: Sys, s': Sys, i: nat, attempt: PublishAttempt, ok: bool)
    requires i < |s.engine.inFlight| && s.engine.inFlight[i] == attempt
    requires s' == s.(log := s'.log,
                   engine := s.engine.(inFlight := PublishEngine.Without(s.engine.inFlight, i)),
                   publishReplies := s.publishReplies + [Single(PublishResult(attempt.request.details.key, ok))])
    ensures ContentsOf(s') == Added(Removed(ContentsOf(s), AttemptPool, i), attempt.request.details.key, InResults(ok))
  {
    var result := PublishResult(attempt.request.details.key, ok);
    assert HeldAttempts(s'.engine.inFlight) == Places.Without(HeldAttempts(s.engine.inFlight), i);
    FlattenAppend(s.publishReplies, [Single(result)]);
    assert Flatten([Single(result)]) == [result];
    assert ResultsUnderWay(s') == ResultsUnderWay(s) + [result];
    assert HeldResults(ResultsUnderWay(s')) == HeldResults(ResultsUnderWay(s)) + [Held(result.key, InResults(ok))];
  }

  lemma BatchedContents(s: Sys, s': Sys, i: nat, attempt: PublishAttempt, ok: bool)
    requires i < |s.engine.inFlight| && s.engine.inFlight[i] == attempt
    requires s' == s.(log := s'.log, engine := Engine(
                   PublishEngine.Without(s.engine.inFlight, i),
                   s.engine.completedBatch + [PublishResult(attempt.request.details.key, ok)]))
    ensures ContentsOf(s') == Added(Removed(ContentsOf(s), AttemptPool, i), attempt.request.details.key, InBatch(ok))
  {
    assert HeldAttempts(s'.engine.inFlight) == Places.Without(HeldAttempts(s.engine.inFlight), i);
    assert HeldBatch(s'.engine.completedBatch) ==
           HeldBatch(s.engine.completedBatch) + [Held(attempt.request.details.key, InBatch(ok))];
  }

  /** The state after a completed attempt, before a full batch is flushed. */
  function Finished(s: Sys, i: nat, ok: bool, appended: bool): Sys
    requires Pipeline.Enabled(s, Finish(i, ok, appended))
  {
    var attempt := s.engine.inFlight[i];
    var details := attempt.request.details;
    var rest := PublishEngine.Without(s.engine.inFlight, i);
    var s1 := s.(log := if appended then s.log + [Replay.Published(details.key, details.status)] else s.log);
    if Retries(attempt, ok) then
      s1.(engine := s.engine.(inFlight := rest + [attempt.Incremented()]))
    else if attempt.request.User? then
      s1.(engine := s.engine.(inFlight := rest),
      publishReplies := s.publishReplies + [Single(PublishResult(details.key, ok))])
    else
      s1.(engine := Engine(rest, s.engine.completedBatch + [PublishResult(details.key, ok)]))
  }

  function FinishedPlace(attempt: PublishAttempt, ok: bool): Place {
    if Retries(attempt, ok) then InAttempts(attempt.attemptCount + 1)
    else if attempt.request.User? then InResults(ok)
    else InBatch(ok)
  }

  lemma FinishShape(s: Sys, i: nat, ok: bool, appended: bool)
    requires Pipeline.Enabled(s, Finish(i, ok, appended))
    ensures var s1 := Finished(s, i, ok, appended);
            Pipeline.Step(s, Finish(i, ok, appended)) ==
            if FinishedPlace(s.engine.inFlight[i], ok).InBatch? && |s1.engine.completedBatch| >= BATCH_SIZE
            then s1.(engine := s1.engine.(completedBatch := []),
                 publishReplies := s1.publishReplies + [PublishOutcome.Batch(s1.engine.completedBatch)])
            else s1
  {
    assert s.publishReplies + [] == s.publishReplies;
  }

  lemma FinishContents(s: Sys, i: nat, ok: bool, appended: bool)
    requires Pipeline.Enabled(s, Finish(i, ok, appended))
    ensures ContentsOf(Finished(s, i, ok, appended)) ==
            Added(Removed(ContentsOf(s), AttemptPool, i), s.engine.inFlight[i].request.details.key,
                  FinishedPlace(s.engine.inFlight[i], ok))
  {
    var attempt := s.engine.inFlight[i];
    var s' := Finished(s, i, ok, appended);
    if Retries(attempt, ok) {
      RetryContents(s, s', i, attempt);
    } else if attempt.request.User? {
      SingleContents(s, s', i, attempt, ok);
    } else {
      BatchedContents(s, s', i, attempt, ok);
    }
  }

  lemma FinishMoves(s: Sys, m: TM.TM, places: map<Key, Place>, i: nat, ok: bool, appended: bool, key: Key)
    requires Pipeline.Enabled(s, Finish(i, ok, appended)) && s.engine.inFlight[i].request.details.key == key
    requires s.coord == m.coord && s.timers == m.timers && s.log == m.log && WakesUnderWay(s) == m.wakes
    requires Finds(s, m, places, AttemptPool, i, key, InAttempts(s.engine.inFlight[i].attemptCount))
    requires PublishMatches(m.tokens, s.engine.inFlight[i].request)
    requires 1 <= s.engine.inFlight[i].attemptCount <= MAX_DELIVERY_ATTEMPTS
    ensures var attempt := s.engine.inFlight[i];
            var e := TM.Attempt(key, ok, appended, !Retries(attempt, ok));
            TM.Enabled(m, e) &&
            Moves(s, Finished(s, i, ok, appended), m, TM.Step(m, e), places, AttemptPool, i, FinishedPlace(attempt, ok))
  {
    FinishContents(s, i, ok, appended);
  }

  lemma FinishAgrees(s: Sys, tokens: Tokens, i: nat, ok: bool, appended: bool)
    requires Pipeline.Enabled(s, Finish(i, ok, appended)) && Agrees(s, tokens)
    ensures Agrees(Finished(s, i, ok, appended), tokens)
  {
    var rest := PublishEngine.Without(s.engine.inFlight, i);
    assert forall j :: 0 <= j < |rest| ==> rest[j] == s.engine.inFlight[if j < i then j else j + 1];
    assert PublishMatches(tokens, s.engine.inFlight[i].request);
  }

  lemma FinishLinks(s: Sys, m: TM.TM, places: map<Key, Place>, i: nat, ok: bool, appended: bool)
    returns (places': map<Key, Place>)
    requires Link(s, m, places) && Pipeline.Enabled(s, Finish(i, ok, appended))
    ensures var e := Meaning(s, Finish(i, ok, appended)).value;
            TM.Enabled(m, e) && Link(Pipeline.Step(s, Finish(i, ok, appended)), TM.Step(m, e), places')
  {
    var attempt := s.engine.inFlight[i];
    var key := attempt.request.details.key;
    var e := Meaning(s, Finish(i, ok, appended)).value;
    var s1 := Finished(s, i, ok, appended);
    assert ContentsOf(s)[AttemptPool][i] == Held(key, InAttempts(attempt.attemptCount));
    Found(s, m, places, AttemptPool, i);
    assert PublishMatches(m.tokens, attempt.request);
    FinishMoves(s, m, places, i, ok, appended, key);
    FinishAgrees(s, m.tokens, i, ok, appended);
    places' := places[key := FinishedPlace(attempt, ok)];
    MoveLinks(s, s1, m, TM.Step(m, e), places, AttemptPool, i, FinishedPlace(attempt, ok));
    places' := MayFlush(s, s1, TM.Step(m, e), places', i, ok, appended);
  }

  /** The last result that fits into the batch also flushes it. */
  lemma MayFlush(s: Sys, s1: Sys, m1: TM.TM, places: map<Key, Place>, i: nat, ok: bool, appended: bool)
    returns (places': map<Key, Place>)
    requires Pipeline.Enabled(s, Finish(i, ok, appended)) && s1 == Finished(s, i, ok, appended)
    requires Link(s1, m1, places)
    ensures Link(Pipeline.Step(s, Finish(i, ok, appended)), m1, places')
  {
    FinishShape(s, i, ok, appended);
    places' := places;
    if Pipeline.Step(s, Finish(i, ok, appended)) != s1 {
      FlushLinks(s1, Pipeline.Step(s, Finish(i, ok, appended)), m1, places);
      places' := Places.Flushed(places);
    }
  }

  // ---- The coordinator ----

  function LaunchPlaces(places: map<Key, Place>, jobs: seq<Job>): map<Key, Place> {
    if jobs == [] then places else places[jobs[0].key := InJobs]
  }

  /** The coordinator changes its own state and sends at most one job, for a key without a token. */
  ghost predicate Launches(s: Sys, s': Sys, m: TM.TM, m': TM.TM, jobs: seq<Job>) {
    && |jobs| <= 1
    && (jobs != [] ==> jobs[0].key !in m.tokens)
    && s' == s.(coord := s'.coord, jobs := s.jobs + jobs)
    && m'.coord == s'.coord && m'.tokens == TM.Launch(m.tokens, jobs)
    && m'.timers == m.timers && m'.wakes == m.wakes && m'.log == m.log
  }

  lemma LaunchContents(s: Sys, s': Sys, job: Job)
    requires s' == s.(coord := s'.coord, jobs := s.jobs + [job])
    ensures ContentsOf(s') == Added(ContentsOf(s), job.key, InJobs)
  {
    assert HeldJobs(s'.jobs) == HeldJobs(s.jobs) + [Held(job.key, InJobs)];
  }

  lemma LaunchTracks(workflow: Workflow.Jobs, tokens: Tokens, places: map<Key, Place>, job: Job)
    requires Located(tokens, places) && Tracks(workflow, tokens, places) && job.key !in tokens
    ensures var tokens' := tokens[job.key := TM.Token(job, TM.Dispatched)];
            Located(tokens', places[job.key := InJobs]) && Tracks(workflow, tokens', places[job.key := InJobs])
            && SameJobs(tokens, tokens')
  {
    var tokens' := tokens[job.key := TM.Token(job, TM.Dispatched)];
    assert TracksKey(workflow, tokens, places, job.key);
    TracksBut(workflow, workflow, tokens, tokens', places, places[job.key := InJobs], job.key);
  }

  lemma LaunchLinks(s: Sys, s': Sys, m: TM.TM, m': TM.TM, places: map<Key, Place>, jobs: seq<Job>)
    requires Link(s, m, places) && Launches(s, s', m, m', jobs)
    ensures Link(s', m', LaunchPlaces(places, jobs))
  {
    if jobs == [] {
      assert s'.jobs == s.jobs;
      assert ContentsOf(s') == ContentsOf(s);
    } else {
      assert jobs == [jobs[0]];
      LaunchOne(s, s', m, m', places, jobs[0]);
    }
  }

  lemma LaunchOne(s: Sys, s': Sys, m: TM.TM, m': TM.TM, places: map<Key, Place>, job: Job)
    requires Link(s, m, places) && Launches(s, s', m, m', [job])
    ensures Link(s', m', places[job.key := InJobs])
  {
    LaunchContents(s, s', job);
    AddKeeps(ContentsOf(s), places, job.key, InJobs);
    LaunchTracks(s.workflow, m.tokens, places, job);
    AgreesStill(s, m.tokens, m'.tokens);
  }

  lemma AcceptLinks(s: Sys, m: TM.TM, places: map<Key, Place>, key: Key, status: Status, caller: Option<Confirmation>)
    returns (places': map<Key, Place>)
    requires Link(s, m, places) && TM.OneToken(m)
    ensures var c := if caller.Some? then s.coord.(pending := s.coord.pending[s.coord.nextId := caller.value])
                     else s.coord;
            Link(Coordinated(s, Intend(c, key, status)), TM.Accept(m, key, status, caller), places')
  {
    var c := if caller.Some? then s.coord.(pending := s.coord.pending[s.coord.nextId := caller.value]) else s.coord;
    var eff := Intend(c, key, status);
    assert key in m.tokens.Keys <==> key in m.coord.speculative.Keys;
    LaunchLinks(s, Coordinated(s, eff), m, TM.Accept(m, key, status, caller), places, eff.jobs);
    places' := LaunchPlaces(places, eff.jobs);
  }

  lemma IdleCoordinator(s: Sys)
    ensures Coordinated(s, Effect(s.coord, [], [], false)) == s
  {
    assert s.jobs + [] == s.jobs;
  }

  lemma TakeInputLinks(s: Sys, m: TM.TM, places: map<Key, Place>, status: Status) returns (places': map<Key, Place>)
    requires Link(s, m, places) && TM.OneToken(m) && Pipeline.Enabled(s, TakeInput(status))
    ensures Link(Pipeline.Step(s, TakeInput(status)), TM.Step(m, TM.Input(status)), places')
  {
    if TM.AcceptsInput(m, status) {
      places' := AcceptLinks(s, m, places, KeyOf(status), status, None);
    } else {
      IdleCoordinator(s);
      places' := places;
    }
  }

  lemma TakeCommandLinks(s: Sys, m: TM.TM, places: map<Key, Place>, a: Action) returns (places': map<Key, Place>)
    requires Link(s, m, places) && TM.OneToken(m) && Pipeline.Enabled(s, a) && a.TakeCommand?
    ensures Link(Pipeline.Step(s, a), TM.Step(m, TM.Command(a.key, a.action, a.user, a.caller, a.now)), places')
  {
    if UserAccepted(s.coord, a.key, a.action) {
      places' := AcceptLinks(s, m, places, a.key, UserStatus(a.key, a.action, a.user, a.now), Some(a.caller));
    } else {
      assert s.jobs + [] == s.jobs;
      assert Pipeline.Step(s, a) == s;
      places' := places;
    }
  }

  lemma TakeWakeContents(s: Sys, s1: Sys, key: Key)
    requires s.outcomes != [] && s.outcomes[0] == Wake(key) && s1 == s.(outcomes := s.outcomes[1..])
    ensures ContentsOf(s1) == ContentsOf(s) && WakesUnderWay(s1) == WakesUnderWay(s) - multiset{key}
    ensures key in WakesUnderWay(s)
  {
    assert HeldOutcomes(s1.outcomes) == HeldOutcomes(s.outcomes);
    assert Wakes(s.outcomes) == multiset{key} + Wakes(s1.outcomes);
  }

  lemma TakeWakeLinks(s: Sys, m: TM.TM, places: map<Key, Place>, key: Key, now: int) returns (places': map<Key, Place>)
    requires Link(s, m, places) && TM.OneToken(m) && Pipeline.Enabled(s, TakeOutcome(now))
    requires s.outcomes[0] == Wake(key)
    ensures TM.Enabled(m, TM.WakeUp(key, now))
    ensures Link(Pipeline.Step(s, TakeOutcome(now)), TM.Step(m, TM.WakeUp(key, now)), places')
  {
    var s1 := s.(outcomes := s.outcomes[1..]);
    var m1 := m.(wakes := m.wakes - multiset{key});
    TakeWakeContents(s, s1, key);
    assert Link(s1, m1, places);
    var status := WakeStatus(key, now);
    if TM.AcceptsInput(m, status) {
      places' := AcceptLinks(s1, m1, places, KeyOf(status), status, None);
    } else {
      IdleCoordinator(s1);
      places' := places;
    }
  }

  lemma SettleContents(s: Sys, s1: Sys, job: Job, ok: bool)
    requires s.outcomes != [] && s.outcomes[0] == (if ok then Committed(job) else Failed(job))
    requires s1 == s.(outcomes := s.outcomes[1..])
    ensures ContentsOf(s)[OutcomeChannel] != [] && ContentsOf(s)[OutcomeChannel][0] == Held(job.key, InOutcomes(ok))
    ensures ContentsOf(s1) == Removed(ContentsOf(s), OutcomeChannel, 0)
    ensures WakesUnderWay(s1) == WakesUnderWay(s)
  {
    assert HeldOutcomes(s1.outcomes) == Places.Without(HeldOutcomes(s.outcomes), 0);
  }

  lemma OutcomesElsewhere(q: seq<JobOutcome>, tokens: Tokens, k: Key)
    requires OutcomesAgree(tokens, q)
    requires Absent(HeldOutcomes(q), k)
    ensures OutcomesAgree(tokens - {k}, q)
  {
    if q != [] {
      var (head, tail) := (q[0], q[1..]);
      assert HeldOutcomes(q) == OutcomeHeld(head) + HeldOutcomes(tail);
      forall i | 0 <= i < |HeldOutcomes(tail)|
        ensures HeldOutcomes(tail)[i].key != k
      {
        assert HeldOutcomes(tail)[i] == HeldOutcomes(q)[|OutcomeHeld(head)| + i];
      }
      assert forall i :: 0 <= i < |tail| ==> tail[i] == q[i + 1];
      OutcomesElsewhere(tail, tokens, k);
      assert OutcomeMatches(tokens, head);
      if !head.Wake? {
        assert HeldOutcomes(q)[0].key == head.job.key;
      }
      forall i | 0 <= i < |q|
        ensures OutcomeMatches(tokens - {k}, q[i])
      {
        if i > 0 {
          assert OutcomeMatches(tokens - {k}, tail[i - 1]);
        }
      }
    }
  }

  lemma JobsElsewhere(q: seq<Job>, tokens: Tokens, k: Key)
    requires JobsAgree(tokens, q)
    requires Absent(HeldJobs(q), k)
    ensures JobsAgree(tokens - {k}, q)
  {
    assert forall i :: 0 <= i < |q| ==> HeldJobs(q)[i].key == q[i].key;
  }

  lemma SnoozesElsewhere(q: seq<SnoozeInput>, tokens: Tokens, k: Key)
    requires SnoozesAgree(tokens, q)
    requires Absent(HeldSnoozes(q), k)
    ensures SnoozesAgree(tokens - {k}, q)
  {
    assert forall i :: 0 <= i < |q| ==> HeldSnoozes(q)[i].key == q[i].key;
  }

  lemma PublishesElsewhere(q: seq<Publish>, tokens: Tokens, k: Key)
    requires PublishesAgree(tokens, q)
    requires Absent(HeldPublishes(q), k)
    ensures PublishesAgree(tokens - {k}, q)
  {
    assert forall i :: 0 <= i < |q| ==> HeldPublishes(q)[i].key == q[i].details.key;
  }

  lemma AttemptsElsewhere(q: seq<PublishAttempt>, tokens: Tokens, k: Key)
    requires AttemptsAgree(tokens, q)
    requires Absent(HeldAttempts(q), k)
    ensures AttemptsAgree(tokens - {k}, q)
  {
    assert forall i :: 0 <= i < |q| ==> HeldAttempts(q)[i].key == q[i].request.details.key;
  }

  /** Messages agree with the tokens that are left when one that no channel holds is dropped. */
  lemma AgreesWithout(s: Sys, tokens: Tokens, places: map<Key, Place>, k: Key)
    requires Agrees(s, tokens) && AllHold(ContentsOf(s), places) && k !in places
    ensures Agrees(s, tokens - {k})
  {
    NotHere(ContentsOf(s), places, JobChannel, k);
    assert Absent(HeldJobs(s.jobs), k);
    JobsElsewhere(s.jobs, tokens, k);
    NotHere(ContentsOf(s), places, SnoozeChannel, k);
    assert Absent(HeldSnoozes(s.snoozes), k);
    SnoozesElsewhere(s.snoozes, tokens, k);
    NotHere(ContentsOf(s), places, PublishChannel, k);
    assert Absent(HeldPublishes(s.publishes), k);
    PublishesElsewhere(s.publishes, tokens, k);
    NotHere(ContentsOf(s), places, AttemptPool, k);
    assert Absent(HeldAttempts(s.engine.inFlight), k);
    AttemptsElsewhere(s.engine.inFlight, tokens, k);
    NotHere(ContentsOf(s), places, OutcomeChannel, k);
    assert Absent(HeldOutcomes(s.outcomes), k);
    OutcomesElsewhere(s.outcomes, tokens, k);
  }

  lemma DropTracks(workflow: Workflow.Jobs, tokens: Tokens, places: map<Key, Place>, k: Key)
    requires Located(tokens, places) && Tracks(workflow, tokens, places) && k in places && places[k].InOutcomes?
    ensures Located(tokens - {k}, places - {k}) && Tracks(workflow, tokens - {k}, places - {k})
  {
    assert TracksKey(workflow, tokens, places, k);
    TracksBut(workflow, workflow, tokens, tokens - {k}, places, places - {k}, k);
  }

  /** Taking an outcome out of its channel takes the token of its key away. */
  lemma DropLinks(s: Sys, m: TM.TM, places: map<Key, Place>, job: Job, ok: bool)
    requires Link(s, m, places) && s.outcomes != [] && s.outcomes[0] == (if ok then Committed(job) else Failed(job))
    ensures TM.InPhase(m, job.key, TM.Finished(ok)) && m.tokens[job.key].job == job
    ensures Link(s.(outcomes := s.outcomes[1..]), m.(tokens := m.tokens - {job.key}), places - {job.key})
  {
    var s1 := s.(outcomes := s.outcomes[1..]);
    SettleContents(s, s1, job, ok);
    Found(s, m, places, OutcomeChannel, 0);
    assert OutcomeMatches(m.tokens, s.outcomes[0]);
    RemoveKeeps(ContentsOf(s), places, OutcomeChannel, 0);
    DropTracks(s.workflow, m.tokens, places, job.key);
    AgreesWithout(s1, m.tokens, places - {job.key}, job.key);
  }

  lemma TakeSettleLinks(s: Sys, m: TM.TM, places: map<Key, Place>, job: Job, ok: bool, now: int)
    returns (places': map<Key, Place>)
    requires Link(s, m, places) && TM.OneToken(m) && Pipeline.Enabled(s, TakeOutcome(now))
    requires s.outcomes[0] == (if ok then Committed(job) else Failed(job))
    ensures TM.Enabled(m, TM.Settle(job.key))
    ensures Link(Pipeline.Step(s, TakeOutcome(now)), TM.Step(m, TM.Settle(job.key)), places')
  {
    DropLinks(s, m, places, job, ok);
    assert job.key in m.tokens.Keys;
    var eff := AfterOutcome(s.coord, s.outcomes[0], now);
    LaunchLinks(s.(outcomes := s.outcomes[1..]), Pipeline.Step(s, TakeOutcome(now)),
                m.(tokens := m.tokens - {job.key}), TM.Settled(m, job.key), places - {job.key}, eff.jobs);
    places' := LaunchPlaces(places - {job.key}, eff.jobs);
  }

  // ---- The refinement ----

  lemma PassOnActions(s: Sys, m: TM.TM, places: map<Key, Place>, a: Action) returns (places': map<Key, Place>)
    requires Link(s, m, places) && Pipeline.Enabled(s, a)
    requires a.TakeJob? || a.TakeSnoozeReply? || a.TakePublishReply? || a.TakeResult? || a.TakePublish? || a.Flush?
    ensures Link(Pipeline.Step(s, a), m, places')
  {
    places' := places;
    match a {
      case TakeJob =>
        TakeJobLinks(s, m, places);
        places' := places[s.jobs[0].key := InSnoozes];
      case TakeSnoozeReply =>
        match s.snoozeReplies[0] {
          case Accepted(key) =>
            TakeReplyLinks(s, m, places, key);
            places' := places[key := InPublishes];
          case InvalidWake(key) =>
            TakeInvalidLinks(s, m, places, key);
            places' := places[key := InOutcomes(false)];
          case Expired(key) =>
            TakeExpiryLinks(s, m, places, key);
        }
      case TakePublishReply =>
        TakePublishReplyLinks(s, m, places);
      case TakeResult =>
        TakeResultLinks(s, m, places, s.hand[0].key, s.hand[0].ok);
        places' := places[s.hand[0].key := InOutcomes(s.hand[0].ok)];
      case TakePublish =>
        TakePublishLinks(s, m, places, s.publishes[0].details.key);
        places' := places[s.publishes[0].details.key := InAttempts(1)];
      case Flush =>
        FlushLinks(s, Pipeline.Step(s, Flush), m, places);
        places' := Places.Flushed(places);
    }
  }

  /** Every action of the pipeline is its meaning in the token machine: one step, or none. */
  lemma ActionRefines(s: Sys, m: TM.TM, places: map<Key, Place>, a: Action) returns (places': map<Key, Place>)
    requires Link(s, m, places) && TM.OneToken(m) && Pipeline.Enabled(s, a)
    ensures Meaning(s, a).Some? ==> TM.Enabled(m, Meaning(s, a).value)
    ensures Link(Pipeline.Step(s, a), After(m, Meaning(s, a)), places')
  {
    match a {
      case TakeInput(status) => places' := TakeInputLinks(s, m, places, status);
      case TakeCommand(_, _, _, _, _) => places' := TakeCommandLinks(s, m, places, a);
      case TakeOutcome(now) =>
        match s.outcomes[0] {
          case Wake(key) => places' := TakeWakeLinks(s, m, places, key, now);
          case Committed(job) => places' := TakeSettleLinks(s, m, places, job, true, now);
          case Failed(job) => places' := TakeSettleLinks(s, m, places, job, false, now);
        }
      case TakeSnooze(clock) => places' := TakeSnoozeLinks(s, m, places, clock);
      case Expire(key) =>
        ExpireLinks(s, m, places, key);
        places' := places;
      case Finish(i, ok, appended) => places' := FinishLinks(s, m, places, i, ok, appended);
      case _ => places' := PassOnActions(s, m, places, a);
    }
  }
}
