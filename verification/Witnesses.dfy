/** Reachable runs in which the service does what its comments rule out. Each starts from an arbitrary
    hydrated state that does not know the key. */
module Witnesses {
  import opened Types
  import opened Keys
  import opened Policy
  import opened Coordinator
  import opened Messages
  import opened Workflow
  import opened Snooze
  import opened PublishEngine
  import opened Pipeline
  import opened Refinement
  import opened Intents
  import Replay

  /** An operator bypasses alarm `key`; the clock is the scheduler's when the command reaches it. */
  datatype Story = Story(hydrated: map<Key, Status>, key: Key, until: Option<Timestamp>, clock: Clock) {
    predicate Possible() {
      Normal(key) && key !in hydrated && OnInput(map[], SnoozeInput(key, until), clock).outcome.Accepted?
    }

    function Command(): Action {
      TakeCommand(key, UserAction.Bypass(until), "", 0, 0)
    }

    function Bypass(): Job {
      Job(1, key, UserStatus(key, UserAction.Bypass(until), "", 0), true)
    }

    function Timers(): Timers {
      OnInput(map[], SnoozeInput(key, until), clock).timers
    }

    function Request(): Publish {
      User(PublishDetails(key, Bypass().status))
    }

    /** The command is accepted and its job is with the workflow handler. */
    function Working(step: nat): Sys {
      Pipeline.Init(hydrated).(
        coord := Start(hydrated).(speculative := map[key := Entry(Bypass().status, 1)], pending := map[1 := 0],
                                  nextId := 2),
        workflow := map[key := Tracked(Bypass(), step)])
    }
  }

  lemma Commanded(t: Story) returns (s: Sys)
    requires t.Possible()
    ensures Pipeline.Reachable(t.hydrated, s) && s == t.Working(0).(workflow := map[], jobs := [t.Bypass()])
  {
    var s0 := Pipeline.Init(t.hydrated);
    assert Pipeline.Runs(s0, [], s0);
    ReachableStep(t.hydrated, s0, t.Command());
    s := Pipeline.Step(s0, t.Command());
  }

  lemma Dispatched(t: Story) returns (s: Sys)
    requires t.Possible()
    ensures Pipeline.Reachable(t.hydrated, s)
    ensures s == t.Working(1).(snoozes := [SnoozeInput(t.key, t.until)])
  {
    var s1 := Commanded(t);
    TakeJobShape(s1);
    ReachableStep(t.hydrated, s1, TakeJob);
    s := Pipeline.Step(s1, TakeJob);
  }

  lemma ReplyTaken(t: Story, s: Sys)
    requires Pipeline.Enabled(s, TakeSnoozeReply) && s.snoozeReplies[0] == Accepted(t.key) && s.publishes == []
    requires s.workflow == map[t.key := Tracked(t.Bypass(), 1)]
    ensures Pipeline.Step(s, TakeSnoozeReply) ==
            s.(snoozeReplies := s.snoozeReplies[1..], workflow := map[t.key := Tracked(t.Bypass(), 2)],
               publishes := [t.Request()])
  {
    TakeReplyShape(s, t.key);
    assert PublishFor(t.Bypass()) == t.Request();
  }

  lemma Snoozed(t: Story) returns (s: Sys)
    requires t.Possible()
    ensures Pipeline.Reachable(t.hydrated, s)
    ensures s == t.Working(1).(timers := t.Timers(), snoozeReplies := [Accepted(t.key)])
  {
    var s1 := Dispatched(t);
    ReachableStep(t.hydrated, s1, TakeSnooze(t.clock));
    s := Pipeline.Step(s1, TakeSnooze(t.clock));
  }

  // ---- A job that goes out under an old id ----

  lemma Publishing(t: Story) returns (s: Sys)
    requires t.Possible()
    ensures Pipeline.Reachable(t.hydrated, s)
    ensures s == t.Working(2).(timers := t.Timers(), publishes := [t.Request()])
  {
    var s1 := Snoozed(t);
    ReplyTaken(t, s1);
    ReachableStep(t.hydrated, s1, TakeSnoozeReply);
    s := Pipeline.Step(s1, TakeSnoozeReply);
  }

  lemma Attempting(t: Story) returns (s: Sys)
    requires t.Possible()
    ensures Pipeline.Reachable(t.hydrated, s)
    ensures s == t.Working(2).(timers := t.Timers(), engine := Engine([PublishAttempt(t.Request(), 1)], []))
  {
    var s1 := Publishing(t);
    ReachableStep(t.hydrated, s1, TakePublish);
    s := Pipeline.Step(s1, TakePublish);
  }

  lemma FailingOnce(t: Story, appended: bool) returns (s: Sys)
    requires t.Possible()
    ensures Pipeline.Reachable(t.hydrated, s)
    ensures s == t.Working(2).(timers := t.Timers(), engine := Engine([PublishAttempt(t.Request(), 2)], []),
                               log := s.log)
  {
    var s1 := Attempting(t);
    ReachableStep(t.hydrated, s1, Finish(0, false, appended));
    s := Pipeline.Step(s1, Finish(0, false, appended));
  }

  lemma FailingTwice(t: Story, first: bool, second: bool) returns (s: Sys)
    requires t.Possible()
    ensures Pipeline.Reachable(t.hydrated, s)
    ensures s == t.Working(2).(timers := t.Timers(), publishReplies := [Single(PublishResult(t.key, false))],
                               log := s.log)
  {
    var s1 := FailingOnce(t, first);
    ReachableStep(t.hydrated, s1, Finish(0, false, second));
    s := Pipeline.Step(s1, Finish(0, false, second));
  }

  lemma Reporting(t: Story, first: bool, second: bool) returns (s: Sys)
    requires t.Possible()
    ensures Pipeline.Reachable(t.hydrated, s)
    ensures s == t.Working(2).(timers := t.Timers(), hand := [PublishResult(t.key, false)], log := s.log)
  {
    var s1 := FailingTwice(t, first, second);
    ReachableStep(t.hydrated, s1, TakePublishReply);
    s := Pipeline.Step(s1, TakePublishReply);
  }

  lemma Failing(t: Story, first: bool, second: bool) returns (s: Sys)
    requires t.Possible()
    ensures Pipeline.Reachable(t.hydrated, s)
    ensures s == t.Working(2).(timers := t.Timers(), workflow := map[], outcomes := [Failed(t.Bypass())], log := s.log)
  {
    var s1 := Reporting(t, first, second);
    ReachableStep(t.hydrated, s1, TakeResult);
    s := Pipeline.Step(s1, TakeResult);
  }

  /** After a bypass whose two publish attempts fail, whether or not they left a record, the coordinator
      sends a job under id 0, which it never allocated. */
  lemma JobUnderOldId(t: Story, first: bool, second: bool, now: int) returns (s: Sys)
    requires t.Possible()
    ensures Pipeline.Reachable(t.hydrated, s) && s.coord.nextId == 2
    ensures s.jobs == [Job(HYDRATED_ID, t.key, DEFAULT_STATUS.(device := t.key.device, source := t.key.source), false)]
  {
    var s1 := Failing(t, first, second);
    ReachableStep(t.hydrated, s1, TakeOutcome(now));
    s := Pipeline.Step(s1, TakeOutcome(now));
  }

  // ---- A wake that overwrites a newer alarm ----

  lemma Expiring(t: Story) returns (s: Sys)
    requires t.Possible() && t.until.Some?
    ensures Pipeline.Reachable(t.hydrated, s)
    ensures s == t.Working(1).(snoozeReplies := [Accepted(t.key), Expired(t.key)])
  {
    var s1 := Snoozed(t);
    ReachableStep(t.hydrated, s1, Expire(t.key));
    s := Pipeline.Step(s1, Expire(t.key));
    assert t.Timers() - {t.key} == map[];
  }

  lemma PublishingExpired(t: Story) returns (s: Sys)
    requires t.Possible() && t.until.Some?
    ensures Pipeline.Reachable(t.hydrated, s)
    ensures s == t.Working(2).(snoozeReplies := [Expired(t.key)], publishes := [t.Request()])
  {
    var s1 := Expiring(t);
    ReplyTaken(t, s1);
    ReachableStep(t.hydrated, s1, TakeSnoozeReply);
    s := Pipeline.Step(s1, TakeSnoozeReply);
  }

  lemma Waking(t: Story) returns (s: Sys)
    requires t.Possible() && t.until.Some?
    ensures Pipeline.Reachable(t.hydrated, s)
    ensures s == t.Working(2).(publishes := [t.Request()], outcomes := [Wake(t.key)])
  {
    var s1 := PublishingExpired(t);
    ReachableStep(t.hydrated, s1, TakeSnoozeReply);
    s := Pipeline.Step(s1, TakeSnoozeReply);
  }

  /** The timer of a bypass has fired. Before its wake reaches the coordinator, a high alarm comes in and
      becomes the latest intent; the wake then replaces it by `Unbypassed`. */
  lemma WakeOverwritesAlarm(t: Story, alarm: Status, now: int) returns (s: Sys)
    requires t.Possible() && t.until.Some? && t.key.source != Epics
    requires KeyOf(alarm) == t.key && alarm.state == Alarmed && alarm.severity == High && alarm.wake.None?
    ensures Pipeline.Reachable(t.hydrated, s) && Pipeline.Enabled(s, TakeOutcome(now))
    ensures StatusOf(Latest(s.coord, t.key)) == Some(alarm)
    ensures StatusOf(Latest(Pipeline.Step(s, TakeOutcome(now)).coord, t.key)) == Some(WakeStatus(t.key, now))
  {
    var s1 := Waking(t);
    ReachableStep(t.hydrated, s1, TakeInput(alarm));
    s := Pipeline.Step(s1, TakeInput(alarm));
    WakeIgnoredIff(s.coord, t.key, now);
    WakeReplaces(s.coord, t.key, now);
  }

  lemma WakeReplaces(c: Coord, k: Key, now: int)
    requires Normal(k) && !IgnoresWake(c, k)
    ensures StatusOf(Latest(AfterWake(c, k, now).coord, k)) == Some(WakeStatus(k, now))
  {
    assert KeyOf(WakeStatus(k, now)) == k;
    WakeIgnoredIff(c, k, now);
  }
}
