/** The whole pipeline: coordinator, workflow handler, snooze scheduler and publish engine, joined by
    their channels. Every handler runs as one atomic step on the message it takes; the order in which
    the tasks run is arbitrary. */
module Pipeline {
  import opened Types
  import opened Keys
  import opened Coordinator
  import opened Messages
  import opened Workflow
  import opened Snooze
  import opened PublishEngine
  import Replay
  import TM = TokenMachine

  datatype Sys = Sys(
    coord: Coord,
    jobs: seq<Job>,
    outcomes: seq<JobOutcome>,
    workflow: Workflow.Jobs,
    /** The part of a publish outcome that the workflow handler has yet to go through. */
    hand: seq<PublishResult>,
    snoozes: seq<SnoozeInput>,
    snoozeReplies: seq<SnoozeOutcome>,
    timers: Timers,
    publishes: seq<Publish>,
    engine: Engine,
    publishReplies: seq<PublishOutcome>,
    /** The Kafka topic, from startup on. */
    log: seq<Replay.Published>,
    /** A task has panicked, stopped on lost state, or overrun the workflow. */
    broken: bool)

  function Init(hydrated: map<Key, Status>): Sys {
    Sys(Start(hydrated), [], [], map[], [], [], [], map[], [], IDLE, [], [], false)
  }

  datatype Action =
    | TakeInput(status: Status)
    | TakeCommand(key: Key, action: UserAction, user: string, caller: Confirmation, now: int)
    | TakeOutcome(now: int)
    | TakeJob
    | TakeSnoozeReply
    | TakePublishReply
    | TakeResult
    | TakeSnooze(clock: Clock)
    | Expire(key: Key)
    | TakePublish
    | Finish(i: nat, ok: bool, appended: bool)
    | Flush

  /** The workflow handler takes no message while it is going through a publish outcome. */
  predicate Enabled(s: Sys, a: Action) {
    && !s.broken
    && match a
       case TakeInput(_) => true
       case TakeCommand(_, _, _, _, _) => true
       case TakeOutcome(_) => s.outcomes != []
       case TakeJob => s.jobs != [] && s.hand == []
       case TakeSnoozeReply => s.snoozeReplies != [] && s.hand == []
       case TakePublishReply => s.publishReplies != [] && s.hand == []
       case TakeResult => s.hand != []
       case TakeSnooze(_) => s.snoozes != []
       case Expire(key) => key in s.timers
       case TakePublish => s.publishes != []
       // A successful attempt has been appended to the topic; a failed one may have been.
       case Finish(i, ok, appended) => i < |s.engine.inFlight| && (ok ==> appended)
       case Flush => s.engine.completedBatch != []
  }

  predicate Admissible(a: Action) {
    match a
    case TakeInput(status) => status.wake.None?
    case TakeCommand(key, _, _, _, _) => Normal(key)
    case _ => true
  }

  function Coordinated(s: Sys, eff: Effect): Sys {
    s.(coord := eff.coord, jobs := s.jobs + eff.jobs, broken := s.broken || eff.lost)
  }

  function Worked(s: Sys, h: Handled): Sys {
    if h.Panic? then s.(broken := true)
    else
      s.(workflow := h.jobs,
      snoozes := s.snoozes + h.snoozes,
      publishes := s.publishes + h.publishes,
      outcomes := s.outcomes + h.outcomes,
      broken := s.broken || h.overran)
  }

  function Published(s: Sys, e: Emitted): Sys {
    s.(engine := e.engine, publishReplies := s.publishReplies + e.outcomes)
  }

  function Step(s: Sys, a: Action): Sys
    requires Enabled(s, a)
  {
    match a
    case TakeInput(status) => Coordinated(s, AfterAutomated(s.coord, status))
    case TakeCommand(key, action, user, caller, now) =>
      Coordinated(s, AfterUser(s.coord, key, action, user, caller, now))
    case TakeOutcome(now) =>
      Coordinated(s.(outcomes := s.outcomes[1..]), AfterOutcome(s.coord, s.outcomes[0], now))
    case TakeJob => Worked(s.(jobs := s.jobs[1..]), OnJob(s.workflow, s.jobs[0]))
    case TakeSnoozeReply =>
      Worked(s.(snoozeReplies := s.snoozeReplies[1..]), OnSnooze(s.workflow, s.snoozeReplies[0]))
    case TakePublishReply =>
      s.(publishReplies := s.publishReplies[1..], hand := Items(s.publishReplies[0]))
    case TakeResult => Worked(s.(hand := s.hand[1..]), OnResult(s.workflow, s.hand[0]))
    case TakeSnooze(clock) =>
      var after := OnInput(s.timers, s.snoozes[0], clock);
      s.(snoozes := s.snoozes[1..], timers := after.timers, snoozeReplies := s.snoozeReplies + [after.outcome])
    case Expire(key) => s.(timers := s.timers - {key}, snoozeReplies := s.snoozeReplies + [Expired(key)])
    case TakePublish =>
      s.(publishes := s.publishes[1..], engine := Received(s.engine, s.publishes[0]))
    case Finish(i, ok, appended) =>
      var details := s.engine.inFlight[i].request.details;
      Published(s.(log := if appended then s.log + [Replay.Published(details.key, details.status)] else s.log),
                Completed(s.engine, i, ok))
    case Flush => Published(s, Ticked(s.engine))
  }

  ghost predicate Runs(s: Sys, actions: seq<Action>, s': Sys)
    decreases |actions|
  {
    if actions == [] then s' == s
    else Enabled(s, actions[0]) && Admissible(actions[0]) && Runs(Step(s, actions[0]), actions[1..], s')
  }

  ghost predicate Reachable(hydrated: map<Key, Status>, s: Sys) {
    exists actions :: Runs(Init(hydrated), actions, s)
  }

  // ---- The wake messages under way ----

  function Expiries(replies: seq<SnoozeOutcome>): multiset<Key> {
    if replies == [] then multiset{}
    else (if replies[0].Expired? then multiset{replies[0].key} else multiset{}) + Expiries(replies[1..])
  }

  function Wakes(outcomes: seq<JobOutcome>): multiset<Key> {
    if outcomes == [] then multiset{}
    else (if outcomes[0].Wake? then multiset{outcomes[0].key} else multiset{}) + Wakes(outcomes[1..])
  }

  /** The keys whose timer fired and whose wake has not reached the coordinator. */
  function WakesUnderWay(s: Sys): multiset<Key> {
    Expiries(s.snoozeReplies) + Wakes(s.outcomes)
  }

  lemma {:induction false} ExpiriesAppend(q: seq<SnoozeOutcome>, r: seq<SnoozeOutcome>)
    ensures Expiries(q + r) == Expiries(q) + Expiries(r)
  {
    if q == [] {
      assert q + r == r;
    } else {
      assert (q + r)[1..] == q[1..] + r;
      ExpiriesAppend(q[1..], r);
    }
  }

  lemma {:induction false} WakesAppend(q: seq<JobOutcome>, r: seq<JobOutcome>)
    ensures Wakes(q + r) == Wakes(q) + Wakes(r)
  {
    if q == [] {
      assert q + r == r;
    } else {
      assert (q + r)[1..] == q[1..] + r;
      WakesAppend(q[1..], r);
    }
  }

  /** A key has a wake under way exactly when one of the two channels has a message saying so. */
  lemma {:induction false} ExpiryMessage(replies: seq<SnoozeOutcome>, k: Key)
    ensures k in Expiries(replies) <==> Expired(k) in replies
  {
    if replies != [] {
      ExpiryMessage(replies[1..], k);
      assert replies == [replies[0]] + replies[1..];
    }
  }

  lemma {:induction false} WakeMessage(outcomes: seq<JobOutcome>, k: Key)
    ensures k in Wakes(outcomes) <==> Wake(k) in outcomes
  {
    if outcomes != [] {
      WakeMessage(outcomes[1..], k);
      assert outcomes == [outcomes[0]] + outcomes[1..];
    }
  }
}
