/** The publish engine: attempts, one retry, and batching of automated results. */
module PublishEngine {
  import opened Types
  import opened Messages

  const BATCH_SIZE: nat := 50
  const MAX_DELIVERY_ATTEMPTS: nat := 2
  const U8_MAX: nat := 255

  datatype PublishAttempt = PublishAttempt(request: Publish, attemptCount: nat) {
    function Incremented(): PublishAttempt {
      PublishAttempt(request, if attemptCount < U8_MAX then attemptCount + 1 else U8_MAX)
    }
  }

  datatype Engine = Engine(inFlight: seq<PublishAttempt>, completedBatch: seq<PublishResult>)

  const IDLE := Engine([], [])

  datatype Emitted = Emitted(engine: Engine, outcomes: seq<PublishOutcome>)

  function Received(e: Engine, request: Publish): Engine {
    e.(inFlight := e.inFlight + [PublishAttempt(request, 1)])
  }

  function Flushed(e: Engine): Emitted {
    Emitted(e.(completedBatch := []), [Batch(e.completedBatch)])
  }

  function Ticked(e: Engine): Emitted {
    if e.completedBatch != [] then Flushed(e) else Emitted(e, [])
  }

  function Concluded(e: Engine, request: Publish, ok: bool): Emitted {
    var result := PublishResult(request.details.key, ok);
    if request.User? then
      Emitted(e, [Single(result)])
    else
      var e' := e.(completedBatch := e.completedBatch + [result]);
      if |e'.completedBatch| >= BATCH_SIZE then Flushed(e') else Emitted(e', [])
  }

  function Without<T>(s: seq<T>, i: nat): seq<T>
    requires i < |s|
  {
    s[..i] + s[i + 1..]
  }

  predicate Retries(attempt: PublishAttempt, ok: bool) {
    !ok && attempt.attemptCount < MAX_DELIVERY_ATTEMPTS
  }

  /** The attempt at position `i` completes; completions may come in any order. */
  function Completed(e: Engine, i: nat, ok: bool): Emitted
    requires i < |e.inFlight|
  {
    var attempt := e.inFlight[i];
    var rest := e.(inFlight := Without(e.inFlight, i));
    if Retries(attempt, ok) then
      Emitted(rest.(inFlight := rest.inFlight + [attempt.Incremented()]), [])
    else
      Concluded(rest, attempt.request, ok)
  }

  /** A failed attempt is retried exactly if it was the first one. */
  lemma RetriesIff(attempt: PublishAttempt, ok: bool)
    requires 1 <= attempt.attemptCount
    ensures Retries(attempt, ok) <==> !ok && attempt.attemptCount == 1
  {}

  /** A result is emitted at once, alone, exactly if a user asked for the publish; an automated result
      waits, until there are fifty. */
  lemma ConcludedEmits(e: Engine, request: Publish, ok: bool)
    ensures var result := PublishResult(request.details.key, ok);
            var after := Concluded(e, request, ok);
            && (request.User? ==> after == Emitted(e, [Single(result)]))
            && (request.Automated? ==>
                  after == if |e.completedBatch| < 49
                           then Emitted(Engine(e.inFlight, e.completedBatch + [result]), [])
                           else Emitted(Engine(e.inFlight, []), [Batch(e.completedBatch + [result])]))
  {}

  // ---- What a whole run of the engine conserves ----

  /** A request that has been decided, with the results of all its attempts in order. */
  datatype Conclusion = Conclusion(request: Publish, attempts: seq<bool>)

  datatype Trace = Trace(
    engine: Engine,
    /** The results so far of the request behind each attempt in flight. */
    histories: seq<seq<bool>>,
    received: seq<Publish>,
    concluded: seq<Conclusion>,
    emitted: seq<PublishOutcome>,
    retries: nat,
    failures: nat)

  datatype Event = Receive(request: Publish) | Complete(i: nat, ok: bool) | Tick

  const START := Trace(IDLE, [], [], [], [], 0, 0)

  predicate Possible(t: Trace, event: Event) {
    event.Complete? ==> event.i < |t.engine.inFlight| && event.i < |t.histories|
  }

  function Apply(t: Trace, event: Event): Trace
    requires Possible(t, event)
  {
    match event
    case Receive(request) =>
      t.(engine := Received(t.engine, request), histories := t.histories + [[]], received := t.received + [request])
    case Tick =>
      var after := Ticked(t.engine);
      t.(engine := after.engine, emitted := t.emitted + after.outcomes)
    case Complete(i, ok) =>
      var attempt := t.engine.inFlight[i];
      var after := Completed(t.engine, i, ok);
      var retried := Retries(attempt, ok);
      var history := t.histories[i] + [ok];
      t.(engine := after.engine,
      histories := Without(t.histories, i) + if retried then [history] else [],
      emitted := t.emitted + after.outcomes,
      concluded := if retried then t.concluded else t.concluded + [Conclusion(attempt.request, history)],
      retries := t.retries + if retried then 1 else 0,
      failures := t.failures + if ok then 0 else 1)
  }

  function Requests(attempts: seq<PublishAttempt>): seq<Publish> {
    seq(|attempts|, i requires 0 <= i < |attempts| => attempts[i].request)
  }

  function Decided(concluded: seq<Conclusion>): seq<Publish> {
    seq(|concluded|, i requires 0 <= i < |concluded| => concluded[i].request)
  }

  function ResultOf(c: Conclusion): PublishResult {
    PublishResult(c.request.details.key, c.attempts != [] && c.attempts[|c.attempts| - 1])
  }

  predicate Lawful(c: Conclusion) {
    c.attempts == [true] || c.attempts == [false, true] || c.attempts == [false, false]
  }

  /** The results of the decided requests of one kind, in the order they were decided. */
  function Results(concluded: seq<Conclusion>, user: bool): seq<PublishResult> {
    if concluded == [] then []
    else
      var (front, last) := (concluded[..|concluded| - 1], concluded[|concluded| - 1]);
      Results(front, user) + if last.request.User? == user then [ResultOf(last)] else []
  }

  function Emissions(emitted: seq<PublishOutcome>, user: bool): seq<PublishResult> {
    if emitted == [] then []
    else
      var (front, last) := (emitted[..|emitted| - 1], emitted[|emitted| - 1]);
      Emissions(front, user) + if last.Single? == user then Items(last) else []
  }

  function Failures(concluded: seq<Conclusion>): nat {
    if concluded == [] then 0
    else
      var (front, last) := (concluded[..|concluded| - 1], concluded[|concluded| - 1]);
      Failures(front) + if ResultOf(last).ok then 0 else 1
  }

  /** Every received request is in flight or decided, once. */
  ghost predicate Accounted(received: seq<Publish>, inFlight: seq<PublishAttempt>, concluded: seq<Conclusion>) {
    multiset(received) == multiset(Requests(inFlight)) + multiset(Decided(concluded))
  }

  /** Every result is emitted or waiting in the batch, once and in the order of the decisions. */
  ghost predicate Reported(concluded: seq<Conclusion>, emitted: seq<PublishOutcome>, batch: seq<PublishResult>) {
    && Results(concluded, false) == Emissions(emitted, false) + batch
    && Results(concluded, true) == Emissions(emitted, true)
  }

  /** One retry at most: one or two attempts, the last of which decides. The attempt in flight is the first,
      or the second after a failure. */
  ghost predicate Attempted(inFlight: seq<PublishAttempt>, histories: seq<seq<bool>>, concluded: seq<Conclusion>) {
    && (forall c :: c in concluded ==> Lawful(c))
    && |histories| == |inFlight|
    && (forall i :: 0 <= i < |inFlight| ==>
          || (inFlight[i].attemptCount == 1 && histories[i] == [])
          || (inFlight[i].attemptCount == 2 && histories[i] == [false]))
  }

  ghost predicate Batched(emitted: seq<PublishOutcome>, batch: seq<PublishResult>) {
    && |batch| < 50
    && (forall o :: o in emitted && o.Batch? ==> 0 < |o.results| <= 50)
  }

  /** The conservation law of the engine; every failed attempt was either retried or decided its
      request as failed. */
  ghost predicate Conserved(t: Trace) {
    && Accounted(t.received, t.engine.inFlight, t.concluded)
    && Reported(t.concluded, t.emitted, t.engine.completedBatch)
    && Attempted(t.engine.inFlight, t.histories, t.concluded)
    && Batched(t.emitted, t.engine.completedBatch)
    && t.failures == t.retries + Failures(t.concluded)
  }

  lemma RequestsAppend(s: seq<PublishAttempt>, a: PublishAttempt)
    ensures Requests(s + [a]) == Requests(s) + [a.request]
  {}

  lemma RequestsWithout(s: seq<PublishAttempt>, i: nat)
    requires i < |s|
    ensures multiset(Requests(s)) == multiset(Requests(Without(s, i))) + multiset{s[i].request}
  {
    var (before, after) := (Requests(s[..i]), Requests(s[i + 1..]));
    assert Requests(s) == before + [s[i].request] + after;
    assert Requests(Without(s, i)) == before + after;
  }

  lemma DecidedOne(concluded: seq<Conclusion>, c: Conclusion)
    ensures var after := concluded + [c];
            && Decided(after) == Decided(concluded) + [c.request]
            && Results(after, c.request.User?) == Results(concluded, c.request.User?) + [ResultOf(c)]
            && Results(after, !c.request.User?) == Results(concluded, !c.request.User?)
            && Failures(after) == Failures(concluded) + if ResultOf(c).ok then 0 else 1
  {
    assert (concluded + [c])[..|concluded|] == concluded;
  }

  lemma EmittedOne(emitted: seq<PublishOutcome>, o: PublishOutcome)
    ensures Emissions(emitted + [o], o.Single?) == Emissions(emitted, o.Single?) + Items(o)
    ensures Emissions(emitted + [o], !o.Single?) == Emissions(emitted, !o.Single?)
  {
    assert (emitted + [o])[..|emitted|] == emitted;
  }

  lemma ReceiveConserves(t: Trace, request: Publish)
    requires Conserved(t)
    ensures Conserved(Apply(t, Receive(request)))
  {
    RequestsAppend(t.engine.inFlight, PublishAttempt(request, 1));
  }

  /** Flushing reports the whole batch. */
  lemma FlushReports(concluded: seq<Conclusion>, emitted: seq<PublishOutcome>, batch: seq<PublishResult>)
    requires Reported(concluded, emitted, batch)
    ensures Reported(concluded, emitted + [Batch(batch)], [])
  {
    EmittedOne(emitted, Batch(batch));
  }

  lemma FlushBatches(emitted: seq<PublishOutcome>, batch: seq<PublishResult>)
    requires forall o :: o in emitted && o.Batch? ==> 0 < |o.results| <= 50
    requires 0 < |batch| <= 50
    ensures Batched(emitted + [Batch(batch)], [])
  {}

  lemma TickConserves(t: Trace)
    requires Conserved(t)
    ensures Conserved(Apply(t, Tick))
  {
    if t.engine.completedBatch != [] {
      FlushReports(t.concluded, t.emitted, t.engine.completedBatch);
      FlushBatches(t.emitted, t.engine.completedBatch);
    } else {
      assert Apply(t, Tick) == t;
    }
  }

  lemma RetryConserves(t: Trace, i: nat)
    requires Conserved(t) && i < |t.engine.inFlight| && Retries(t.engine.inFlight[i], false)
    ensures Conserved(Apply(t, Complete(i, false)))
  {
    var attempt := t.engine.inFlight[i];
    RequestsWithout(t.engine.inFlight, i);
    RequestsAppend(Without(t.engine.inFlight, i), attempt.Incremented());
    RetriedOne(t.engine.inFlight, t.histories, t.concluded, i);
    assert t.emitted + [] == t.emitted;
  }

  lemma ReportedOne(concluded: seq<Conclusion>, c: Conclusion, e: Engine, emitted: seq<PublishOutcome>)
    requires Reported(concluded, emitted, e.completedBatch) && Batched(emitted, e.completedBatch)
    ensures var after := Concluded(e, c.request, ResultOf(c).ok);
            && Reported(concluded + [c], emitted + after.outcomes, after.engine.completedBatch)
            && Batched(emitted + after.outcomes, after.engine.completedBatch)
            && after.engine.inFlight == e.inFlight
  {
    if c.request.User? {
      DecidedOne(concluded, c);
      EmittedOne(emitted, Single(ResultOf(c)));
    } else {
      var batch := e.completedBatch + [ResultOf(c)];
      BatchedOne(concluded, c, emitted, e.completedBatch);
      if |batch| >= BATCH_SIZE {
        FlushReports(concluded + [c], emitted, batch);
        FlushBatches(emitted, batch);
      } else {
        assert emitted + [] == emitted;
      }
    }
  }

  lemma BatchedOne(concluded: seq<Conclusion>, c: Conclusion, emitted: seq<PublishOutcome>,
                   batch: seq<PublishResult>)
    requires Reported(concluded, emitted, batch) && c.request.Automated?
    ensures Reported(concluded + [c], emitted, batch + [ResultOf(c)])
  {
    DecidedOne(concluded, c);
  }

  lemma AccountedOne(received: seq<Publish>, inFlight: seq<PublishAttempt>, concluded: seq<Conclusion>, i: nat,
                     c: Conclusion)
    requires i < |inFlight| && c.request == inFlight[i].request
    requires Accounted(received, inFlight, concluded)
    ensures Accounted(received, Without(inFlight, i), concluded + [c])
  {
    RequestsWithout(inFlight, i);
    assert Decided(concluded + [c]) == Decided(concluded) + [c.request];
  }

  lemma AttemptedOne(inFlight: seq<PublishAttempt>, histories: seq<seq<bool>>, concluded: seq<Conclusion>, i: nat,
                     ok: bool)
    requires Attempted(inFlight, histories, concluded) && i < |inFlight| && !Retries(inFlight[i], ok)
    ensures Attempted(Without(inFlight, i), Without(histories, i),
                      concluded + [Conclusion(inFlight[i].request, histories[i] + [ok])])
  {
    assert ([false] + [ok]) == [false, ok] && [] + [ok] == [ok];
  }

  lemma RetriedOne(inFlight: seq<PublishAttempt>, histories: seq<seq<bool>>, concluded: seq<Conclusion>, i: nat)
    requires Attempted(inFlight, histories, concluded) && i < |inFlight| && Retries(inFlight[i], false)
    ensures Attempted(Without(inFlight, i) + [inFlight[i].Incremented()],
                      Without(histories, i) + [histories[i] + [false]], concluded)
  {
    assert [] + [false] == [false];
  }

  lemma ConclusionConserves(t: Trace, i: nat, ok: bool)
    requires Conserved(t) && i < |t.engine.inFlight| && !Retries(t.engine.inFlight[i], ok)
    ensures Conserved(Apply(t, Complete(i, ok)))
  {
    var attempt := t.engine.inFlight[i];
    var conclusion := Conclusion(attempt.request, t.histories[i] + [ok]);
    var (inFlight, histories) := (Without(t.engine.inFlight, i), Without(t.histories, i));
    var concluded := t.concluded + [conclusion];
    var rest := t.engine.(inFlight := inFlight);
    var after := Concluded(rest, attempt.request, ok);
    assert Accounted(t.received, inFlight, concluded) by {
      AccountedOne(t.received, t.engine.inFlight, t.concluded, i, conclusion);
    }
    assert Attempted(inFlight, histories, concluded) by {
      AttemptedOne(t.engine.inFlight, t.histories, t.concluded, i, ok);
    }
    assert ResultOf(conclusion).ok == ok;
    ReportedOne(t.concluded, conclusion, rest, t.emitted);
    FailuresOne(t.concluded, conclusion);
    assert histories + [] == histories;
    assert Apply(t, Complete(i, ok)) == t.(engine := after.engine, histories := histories,
                                           emitted := t.emitted + after.outcomes, concluded := concluded,
                                           failures := t.failures + if ok then 0 else 1);
  }

  lemma FailuresOne(concluded: seq<Conclusion>, c: Conclusion)
    ensures Failures(concluded + [c]) == Failures(concluded) + if ResultOf(c).ok then 0 else 1
  {
    DecidedOne(concluded, c);
  }

  lemma StepConserves(t: Trace, event: Event)
    requires Conserved(t) && Possible(t, event)
    ensures Conserved(Apply(t, event))
  {
    match event
    case Receive(request) => ReceiveConserves(t, request);
    case Tick => TickConserves(t);
    case Complete(i, ok) =>
      if Retries(t.engine.inFlight[i], ok) {
        RetryConserves(t, i);
      } else {
        ConclusionConserves(t, i, ok);
      }
  }

  ghost predicate Executes(t: Trace, events: seq<Event>, t': Trace)
    decreases |events|
  {
    if events == [] then t == t'
    else Possible(t, events[0]) && Executes(Apply(t, events[0]), events[1..], t')
  }

  /** The conservation law holds after any run of the engine from its start. */
  lemma RunConserves(events: seq<Event>, t: Trace)
    requires Executes(START, events, t)
    ensures Conserved(t)
  {
    RunConservesFrom(START, events, t);
  }

  lemma {:induction false} RunConservesFrom(t: Trace, events: seq<Event>, t': Trace)
    requires Conserved(t) && Executes(t, events, t')
    ensures Conserved(t')
    decreases |events|
  {
    if events != [] {
      StepConserves(t, events[0]);
      RunConservesFrom(Apply(t, events[0]), events[1..], t');
    }
  }

  class PublishWorker {
    var inFlight: seq<PublishAttempt>
    var completedBatch: seq<PublishResult>

    var publishAttempts: nat
    var publishRetries: nat
    var publishFailures: nat
    var inFlightPublishAttempts: int

    ghost function View(): Engine
      reads this
    {
      Engine(inFlight, completedBatch)
    }

    /** The gauge counts the attempts in flight. */
    ghost predicate Valid()
      reads this
    {
      inFlightPublishAttempts == |inFlight|
    }

    constructor ()
      ensures Valid() && View() == IDLE
      ensures publishAttempts == publishRetries == publishFailures == 0
    {
      inFlight, completedBatch := [], [];
      publishAttempts, publishRetries, publishFailures, inFlightPublishAttempts := 0, 0, 0, 0;
    }

    method DeliverAttempt(attempt: PublishAttempt)
      modifies this`inFlight, this`publishAttempts, this`inFlightPublishAttempts
      ensures inFlight == old(inFlight) + [attempt]
      ensures publishAttempts == old(publishAttempts) + 1
      ensures inFlightPublishAttempts == old(inFlightPublishAttempts) + 1
    {
      publishAttempts := publishAttempts + 1;
      inFlightPublishAttempts := inFlightPublishAttempts + 1;
      inFlight := inFlight + [attempt];
    }

    method OnReceive(request: Publish)
      requires Valid()
      modifies this`inFlight, this`publishAttempts, this`inFlightPublishAttempts
      ensures Valid() && View() == Received(old(View()), request)
      ensures inFlight == old(inFlight) + [PublishAttempt(request, 1)]
      ensures publishAttempts == old(publishAttempts) + 1
    {
      DeliverAttempt(PublishAttempt(request, 1));
    }

    method FlushCompletedBatch() returns (outcome: PublishOutcome)
      modifies this`completedBatch
      ensures Emitted(View(), [outcome]) == Flushed(old(View()))
    {
      outcome := Batch(completedBatch);
      completedBatch := [];
    }

    method OnTick() returns (outcomes: seq<PublishOutcome>)
      modifies this`completedBatch
      ensures Emitted(View(), outcomes) == Ticked(old(View()))
    {
      outcomes := [];
      if completedBatch != [] {
        var outcome := FlushCompletedBatch();
        outcomes := [outcome];
      }
    }

    method HandleCompletedWork(request: Publish, ok: bool) returns (outcomes: seq<PublishOutcome>)
      modifies this`completedBatch
      ensures Emitted(View(), outcomes) == Concluded(old(View()), request, ok)
    {
      outcomes := [];
      var result := PublishResult(request.details.key, ok);
      if request.User? {
        outcomes := [Single(result)];
      } else {
        completedBatch := completedBatch + [result];
        if |completedBatch| >= BATCH_SIZE {
          var outcome := FlushCompletedBatch();
          outcomes := [outcome];
        }
      }
    }

    method OnCompletion(i: nat, ok: bool) returns (outcomes: seq<PublishOutcome>)
      requires Valid() && i < |inFlight|
      modifies this
      ensures Valid() && Emitted(View(), outcomes) == Completed(old(View()), i, ok)
      ensures publishFailures == old(publishFailures) + if ok then 0 else 1
      ensures var retried := Retries(old(inFlight)[i], ok);
              && publishRetries == old(publishRetries) + (if retried then 1 else 0)
              && publishAttempts == old(publishAttempts) + (if retried then 1 else 0)
    {
      var attempt := inFlight[i];
      inFlight := inFlight[..i] + inFlight[i + 1..];
      inFlightPublishAttempts := inFlightPublishAttempts - 1;
      outcomes := [];
      if ok {
        outcomes := HandleCompletedWork(attempt.request, true);
      } else {
        publishFailures := publishFailures + 1;
        if attempt.attemptCount < MAX_DELIVERY_ATTEMPTS {
          publishRetries := publishRetries + 1;
          DeliverAttempt(attempt.Incremented());
        } else {
          outcomes := HandleCompletedWork(attempt.request, false);
        }
      }
    }
  }
}
