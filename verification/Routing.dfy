/** Automated and user publishes keep apart on their way through the engine: what is in the engine, and
    which way its results come back, is decided by the outstanding job of the key. */
module Routing {
  import opened Types
  import opened Coordinator
  import opened Messages
  import opened PublishEngine
  import opened Pipeline
  import opened Places
  import opened Refinement
  import opened PipelineTheorems
  import Keys
  import TM = TokenMachine
  import TP = TokenProofs

  /** The publish asks for the status of the job, and is a user's exactly if the job is. */
  predicate Carries(publish: Publish, job: Job) {
    publish.details == PublishDetails(job.key, job.status) && (publish.User? <==> job.userInitiated)
  }

  predicate InEngine(s: Sys, publish: Publish) {
    publish in s.publishes || exists i :: 0 <= i < |s.engine.inFlight| && s.engine.inFlight[i].request == publish
  }

  lemma EngineCarries(s: Sys, m: TM.TM, publish: Publish)
    requires Agrees(s, m.tokens) && InEngine(s, publish)
    ensures publish.details.key in m.tokens
    ensures m.tokens[publish.details.key].job.key == publish.details.key ==>
              Carries(publish, m.tokens[publish.details.key].job)
  {
    if publish in s.publishes {
      var i :| 0 <= i < |s.publishes| && s.publishes[i] == publish;
      assert PublishMatches(m.tokens, s.publishes[i]);
    } else {
      var i :| 0 <= i < |s.engine.inFlight| && s.engine.inFlight[i].request == publish;
      assert PublishMatches(m.tokens, s.engine.inFlight[i].request);
    }
  }

  /** In every reachable state, a publish on its way to the engine or attempted by it carries the one
      outstanding job of its key. */
  lemma PublishesCarryJobs(hydrated: map<Key, Status>, s: Sys, publish: Publish) returns (job: Job)
    requires TP.Hydration(hydrated) && Pipeline.Reachable(hydrated, s) && InEngine(s, publish)
    ensures Outstanding(s, job) && job.key == publish.details.key && Carries(publish, job)
  {
    var m, places := ReachableImplements(hydrated, s);
    EngineCarries(s, m, publish);
    var k := publish.details.key;
    assert k in m.tokens.Keys;
    job := m.tokens[k].job;
    TokenIsOutstanding(s, m, places, k);
  }

  // ---- The way back ----

  /** The result is that of a job with this user flag. */
  predicate ResultOfKind(tokens: Tokens, result: PublishResult, user: bool) {
    result.key in tokens && (tokens[result.key].job.userInitiated <==> user)
  }

  ghost predicate AllOfKind(tokens: Tokens, results: seq<PublishResult>, user: bool) {
    forall r :: r in results ==> ResultOfKind(tokens, r, user)
  }

  /** Results of automated jobs wait in the batch and come back in batches; those of user jobs come back
      alone. */
  ghost predicate KeptApart(tokens: Tokens, batch: seq<PublishResult>, replies: seq<PublishOutcome>) {
    && AllOfKind(tokens, batch, false)
    && forall o :: o in replies ==> AllOfKind(tokens, Items(o), o.Single?)
  }

  ghost predicate Apart(s: Sys, tokens: Tokens) {
    KeptApart(tokens, s.engine.completedBatch, s.publishReplies)
  }

  lemma {:induction false} ItemIsFlattened(outcomes: seq<PublishOutcome>, o: PublishOutcome, r: PublishResult)
    requires o in outcomes && r in Items(o)
    ensures r in Flatten(outcomes)
  {
    if o != outcomes[0] {
      ItemIsFlattened(outcomes[1..], o, r);
    }
  }

  /** A result in the batch or in a reply is the token of its key. */
  lemma ResultIsPlaced(s: Sys, m: TM.TM, places: map<Key, Place>, r: PublishResult)
    requires Link(s, m, places)
    requires r in s.engine.completedBatch || exists o :: o in s.publishReplies && r in Items(o)
    ensures r.key in m.tokens && r.key in places
    ensures places[r.key].Where() == BatchBuffer || places[r.key].Where() == ResultChannel
  {
    if r in s.engine.completedBatch {
      var i :| 0 <= i < |s.engine.completedBatch| && s.engine.completedBatch[i] == r;
      assert ContentsOf(s)[BatchBuffer][i] == Held(r.key, InBatch(r.ok));
      Found(s, m, places, BatchBuffer, i);
    } else {
      var o :| o in s.publishReplies && r in Items(o);
      ItemIsFlattened(s.publishReplies, o, r);
      assert r in ResultsUnderWay(s);
      var i :| 0 <= i < |ResultsUnderWay(s)| && ResultsUnderWay(s)[i] == r;
      assert ContentsOf(s)[ResultChannel][i] == Held(r.key, InResults(r.ok));
      Found(s, m, places, ResultChannel, i);
    }
  }

  predicate SameJob(tokens: Tokens, tokens': Tokens, k: Key) {
    k in tokens && k in tokens' && tokens'[k].job == tokens[k].job
  }

  lemma AcceptKeepsJobs(m: TM.TM, key: Key, status: Status, caller: Option<Confirmation>, k: Key)
    requires TM.OneToken(m) && k in m.tokens
    ensures SameJob(m.tokens, TM.Accept(m, key, status, caller).tokens, k)
  {
    assert key in m.tokens.Keys <==> key in m.coord.speculative.Keys;
  }

  /** Only the outcome of its job changes what a token stands for. */
  lemma StepKeepsJob(m: TM.TM, e: TM.Event, k: Key)
    requires TM.OneToken(m) && TM.Enabled(m, e) && k in m.tokens
    requires e.Settle? ==> e.key != k && m.tokens[e.key].job.key == e.key
    ensures SameJob(m.tokens, TM.Step(m, e).tokens, k)
  {
    match e
    case Input(status) => AcceptKeepsJobs(m, Keys.KeyOf(status), status, None, k);
    case Command(key, action, user, caller, now) =>
      AcceptKeepsJobs(m, key, UserStatus(key, action, user, now), Some(caller), k);
    case WakeUp(key, now) =>
      AcceptKeepsJobs(m.(wakes := m.wakes - multiset{key}), Keys.KeyOf(WakeStatus(key, now)), WakeStatus(key, now),
                      None, k);
    case _ =>
  }

  lemma PlacedKeepsJob(s: Sys, m: TM.TM, places: map<Key, Place>, a: Action, k: Key)
    requires Link(s, m, places) && TM.OneToken(m) && Pipeline.Enabled(s, a)
    requires Meaning(s, a).Some? ==> TM.Enabled(m, Meaning(s, a).value)
    requires k in places && k in m.tokens && places[k].Where() != OutcomeChannel
    ensures SameJob(m.tokens, After(m, Meaning(s, a)).tokens, k)
  {
    if a.TakeOutcome? && !s.outcomes[0].Wake? {
      var job := s.outcomes[0].job;
      SettledIsPlaced(s, m, places, job);
      StepKeepsJob(m, TM.Settle(job.key), k);
    } else if Meaning(s, a).Some? {
      StepKeepsJob(m, Meaning(s, a).value, k);
    }
  }

  lemma SettledIsPlaced(s: Sys, m: TM.TM, places: map<Key, Place>, job: Job)
    requires Link(s, m, places) && s.outcomes != [] && !s.outcomes[0].Wake? && s.outcomes[0].job == job
    ensures job.key in places && places[job.key].Where() == OutcomeChannel
    ensures job.key in m.tokens && m.tokens[job.key].job.key == job.key
  {
    SettleContents(s, s.(outcomes := s.outcomes[1..]), job, s.outcomes[0].Committed?);
    Found(s, m, places, OutcomeChannel, 0);
  }

  lemma StaysApart(s: Sys, m: TM.TM, places: map<Key, Place>, a: Action)
    requires Link(s, m, places) && TM.OneToken(m) && Pipeline.Enabled(s, a) && Apart(s, m.tokens)
    requires Meaning(s, a).Some? ==> TM.Enabled(m, Meaning(s, a).value)
    ensures Apart(s, After(m, Meaning(s, a)).tokens)
  {
    var tokens' := After(m, Meaning(s, a)).tokens;
    forall r | r in s.engine.completedBatch
      ensures ResultOfKind(tokens', r, false)
    {
      ResultIsPlaced(s, m, places, r);
      PlacedKeepsJob(s, m, places, a, r.key);
    }
    forall o, r | o in s.publishReplies && r in Items(o)
      ensures ResultOfKind(tokens', r, o.Single?)
    {
      ResultIsPlaced(s, m, places, r);
      PlacedKeepsJob(s, m, places, a, r.key);
    }
  }

  /** A concluded request goes the way of its kind. */
  lemma ConcludedApart(tokens: Tokens, e: Engine, request: Publish, ok: bool, replies: seq<PublishOutcome>)
    requires KeptApart(tokens, e.completedBatch, replies)
    requires ResultOfKind(tokens, PublishResult(request.details.key, ok), request.User?)
    ensures var after := Concluded(e, request, ok);
            KeptApart(tokens, after.engine.completedBatch, replies + after.outcomes)
  {
    ConcludedEmits(e, request, ok);
  }

  lemma FinishApart(s: Sys, tokens: Tokens, i: nat, ok: bool, appended: bool)
    requires Pipeline.Enabled(s, Finish(i, ok, appended)) && Apart(s, tokens)
    requires var request := s.engine.inFlight[i].request;
             ResultOfKind(tokens, PublishResult(request.details.key, ok), request.User?)
    ensures Apart(Pipeline.Step(s, Finish(i, ok, appended)), tokens)
  {
    var attempt := s.engine.inFlight[i];
    if Retries(attempt, ok) {
      assert s.publishReplies + [] == s.publishReplies;
    } else {
      var rest := s.engine.(inFlight := PublishEngine.Without(s.engine.inFlight, i));
      ConcludedApart(tokens, rest, attempt.request, ok, s.publishReplies);
    }
  }

  lemma FlushApart(s: Sys, tokens: Tokens)
    requires Pipeline.Enabled(s, Flush) && Apart(s, tokens)
    ensures Apart(Pipeline.Step(s, Flush), tokens)
  {}

  lemma TakeReplyApart(s: Sys, tokens: Tokens)
    requires Pipeline.Enabled(s, TakePublishReply) && Apart(s, tokens)
    ensures Apart(Pipeline.Step(s, TakePublishReply), tokens)
  {}

  lemma OtherApart(s: Sys, a: Action, tokens: Tokens)
    requires Pipeline.Enabled(s, a) && Apart(s, tokens) && !a.Finish? && !a.Flush? && !a.TakePublishReply?
    ensures Apart(Pipeline.Step(s, a), tokens)
  {}

  lemma StepApart(s: Sys, m: TM.TM, places: map<Key, Place>, a: Action)
    requires Link(s, m, places) && TM.OneToken(m) && Pipeline.Enabled(s, a) && Apart(s, m.tokens)
    requires Meaning(s, a).Some? ==> TM.Enabled(m, Meaning(s, a).value)
    ensures Apart(Pipeline.Step(s, a), After(m, Meaning(s, a)).tokens)
  {
    var tokens' := After(m, Meaning(s, a)).tokens;
    StaysApart(s, m, places, a);
    match a
    case Finish(i, ok, appended) =>
      AttemptKind(s, m, places, i);
      FinishApart(s, tokens', i, ok, appended);
    case Flush => FlushApart(s, tokens');
    case TakePublishReply => TakeReplyApart(s, tokens');
    case _ => OtherApart(s, a, tokens');
  }

  lemma AttemptKind(s: Sys, m: TM.TM, places: map<Key, Place>, i: nat)
    requires Link(s, m, places) && i < |s.engine.inFlight|
    ensures var request := s.engine.inFlight[i].request;
            && request.details.key in m.tokens
            && (m.tokens[request.details.key].job.userInitiated <==> request.User?)
  {
    var request := s.engine.inFlight[i].request;
    assert ContentsOf(s)[AttemptPool][i] == Held(request.details.key, InAttempts(s.engine.inFlight[i].attemptCount));
    Found(s, m, places, AttemptPool, i);
    EngineCarries(s, m, request);
  }

  lemma {:induction false} RunApart(s: Sys, m: TM.TM, places: map<Key, Place>, actions: seq<Action>, s': Sys)
    returns (m': TM.TM, places': map<Key, Place>)
    requires Implements(s, m, places) && Apart(s, m.tokens) && Pipeline.Runs(s, actions, s')
    ensures Implements(s', m', places') && Apart(s', m'.tokens)
    decreases |actions|
  {
    if actions == [] {
      m', places' := m, places;
    } else {
      var a := actions[0];
      var places1 := StepImplements(s, m, places, a);
      StepApart(s, m, places, a);
      m', places' := RunApart(Pipeline.Step(s, a), After(m, Meaning(s, a)), places1, actions[1..], s');
    }
  }

  lemma FirstApart(hydrated: map<Key, Status>) returns (m: TM.TM, places: map<Key, Place>)
    requires TP.Hydration(hydrated)
    ensures Implements(Pipeline.Init(hydrated), m, places) && Apart(Pipeline.Init(hydrated), m.tokens)
  {
    InitImplements(hydrated);
    m, places := TM.Init(hydrated), map[];
  }

  /** The result comes back in this way: waiting for a batch or in one, or alone. */
  predicate ComesBack(s: Sys, r: PublishResult, alone: bool) {
    || (!alone && r in s.engine.completedBatch)
    || exists o :: o in s.publishReplies && r in Items(o) && (o.Single? <==> alone)
  }

  /** In every reachable state, a result waits for a batch or comes back in one exactly if the outstanding job
      of its key is automated, and comes back alone exactly if that job is a user's. */
  lemma ResultsGoTheirWay(hydrated: map<Key, Status>, s: Sys, r: PublishResult, alone: bool) returns (job: Job)
    requires TP.Hydration(hydrated) && Pipeline.Reachable(hydrated, s) && ComesBack(s, r, alone)
    ensures Outstanding(s, job) && job.key == r.key && (job.userInitiated <==> alone)
  {
    var actions :| Pipeline.Runs(Pipeline.Init(hydrated), actions, s);
    var m0, places0 := FirstApart(hydrated);
    var m, places := RunApart(Pipeline.Init(hydrated), m0, places0, actions, s);
    job := ResultJob(s, m, places, r, alone);
  }

  lemma ResultJob(s: Sys, m: TM.TM, places: map<Key, Place>, r: PublishResult, alone: bool) returns (job: Job)
    requires Link(s, m, places) && Apart(s, m.tokens) && ComesBack(s, r, alone)
    ensures Outstanding(s, job) && job.key == r.key && (job.userInitiated <==> alone)
  {
    ResultIsPlaced(s, m, places, r);
    assert ResultOfKind(m.tokens, r, alone);
    job := m.tokens[r.key].job;
    TokenIsOutstanding(s, m, places, r.key);
  }
}
